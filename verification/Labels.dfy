/** The labels every operand object gets (pkg/common/labels.go). */
module Labels {
  import opened Kube

  const NAME_LABEL := "app.kubernetes.io/name"
  const PART_OF_LABEL := "app.kubernetes.io/part-of"
  const VERSION_LABEL := "app.kubernetes.io/version"
  const MANAGED_BY_LABEL := "app.kubernetes.io/managed-by"
  const COMPONENT_LABEL := "app.kubernetes.io/component"
  const MANAGED_BY_VALUE := "tekton-tasks-operator"

  /** A Go map read: a missing key gives the empty string. */
  function Lookup(m: map<string, string>, k: string): string {
    if k in m then m[k] else ""
  }

  /** The labels that an object must carry, given the CR's own labels. */
  function AppLabels(instLabels: Option<map<string, string>>, name: string, component: string): map<string, string> {
    (match instLabels
     case None => map[]
     case Some(from) => map[PART_OF_LABEL := Lookup(from, PART_OF_LABEL), VERSION_LABEL := Lookup(from, VERSION_LABEL)])
    + map[NAME_LABEL := name, COMPONENT_LABEL := component, MANAGED_BY_LABEL := MANAGED_BY_VALUE]
  }

  /** Writes the labels into an object one by one and leaves all others alone. */
  method AddAppLabels(instLabels: Option<map<string, string>>, name: string, component: string,
                      obj: map<string, string>)
    returns (labels: map<string, string>)
    ensures labels == obj + AppLabels(instLabels, name, component)
  {
    labels := obj;
    if instLabels.Some? {
      labels := labels[PART_OF_LABEL := Lookup(instLabels.value, PART_OF_LABEL)];
      labels := labels[VERSION_LABEL := Lookup(instLabels.value, VERSION_LABEL)];
    }
    labels := labels[NAME_LABEL := name];
    labels := labels[COMPONENT_LABEL := component];
    labels := labels[MANAGED_BY_LABEL := MANAGED_BY_VALUE];
  }

  /** What the labels of an object say afterwards: the operator's three are set, the two copied ones are there
      exactly as the CR has them if the CR has labels at all, and no other label changes. */
  lemma LabelsWritten(instLabels: Option<map<string, string>>, name: string, component: string,
                      obj: map<string, string>, k: string)
    ensures var labels := obj + AppLabels(instLabels, name, component);
            && Lookup(labels, NAME_LABEL) == name && Lookup(labels, COMPONENT_LABEL) == component
            && Lookup(labels, MANAGED_BY_LABEL) == MANAGED_BY_VALUE
            && (instLabels.Some? ==>
                  && PART_OF_LABEL in labels && labels[PART_OF_LABEL] == Lookup(instLabels.value, PART_OF_LABEL)
                  && VERSION_LABEL in labels && labels[VERSION_LABEL] == Lookup(instLabels.value, VERSION_LABEL))
            && (k != NAME_LABEL && k != COMPONENT_LABEL && k != MANAGED_BY_LABEL
                && (instLabels.Some? ==> k != PART_OF_LABEL && k != VERSION_LABEL) ==>
                  (k in labels <==> k in obj) && (k in obj ==> labels[k] == obj[k]))
  {
    assert |NAME_LABEL| == 22 && |COMPONENT_LABEL| == 27 && |MANAGED_BY_LABEL| == 28;
    assert |PART_OF_LABEL| == 25 && |VERSION_LABEL| == 25 && PART_OF_LABEL[18] != VERSION_LABEL[18];
  }
}

/** What the operands expect of the cluster: for each list entry one object, at a key of its own. */
module Expectations {
  import opened Kube
  import opened Labels
  import opened Ownership
  import opened Resource
  import opened Operands

  /** The object that a pass for a CR expects for a list entry; None where preparing it panics. */
  function Expected(inst: CR, cfg: Config, e: Entry): Option<Obj> {
    var p := Prepared(e.rule, cfg, inst.nn.ns, inst.spec, e.obj);
    if p.None? then None else Some(MarkedFor(inst, RecipeOf(e.rule, false), p.value).obj)
  }

  /** A list holds objects of one kind. */
  predicate WellKinded(e: Entry) {
    e.obj.kind == KindOf(e.rule)
  }

  /** What tells entries apart whatever the CR's spec is: the namespace counts only where it is not taken
      from the spec. */
  function Identity(ns: string, e: Entry): Key {
    var place := match e.rule
                 case TTask => ""
                 case PPipeline => ""
                 case PConfigMap => ""
                 case TServiceAccount => ns
                 case TRoleBinding => ns
                 case PRoleBinding => if e.obj.ns == "" then ns else e.obj.ns
                 case PServiceAccount => if e.obj.ns == "" then ns else e.obj.ns
                 case TClusterRole => e.obj.ns
                 case PClusterRole => e.obj.ns;
    Key(KindOf(e.rule), place, e.obj.name)
  }

  ghost predicate DistinctEntries(ns: string, es: seq<Entry>) {
    forall i, j | 0 <= i < j < |es| :: Identity(ns, es[i]) != Identity(ns, es[j])
  }

  /** The key at which a pass for a CR looks for an entry. */
  function TargetKey(ns: string, spec: Spec, e: Entry): Key {
    Key(KindOf(e.rule), TargetNs(e.rule, ns, spec, e.obj.ns), e.obj.name)
  }

  lemma ExpectedKey(inst: CR, cfg: Config, e: Entry)
    requires WellKinded(e) && Expected(inst, cfg, e).Some?
    ensures KeyOf(Expected(inst, cfg, e).value) == TargetKey(inst.nn.ns, inst.spec, e)
  {
  }

  /** Entries with different identities never meet at one key, for any spec. */
  lemma IdentitiesSeparateKeys(ns: string, spec: Spec, a: Entry, b: Entry)
    requires Identity(ns, a) != Identity(ns, b)
    ensures TargetKey(ns, spec, a) != TargetKey(ns, spec, b)
  {
  }

  /** Two role bindings of the pipelines operand with the same name, one of them with a fixed namespace, meet
      at one key exactly if the CR lives in that namespace: the first takes the CR's namespace and keeps it. */
  lemma BindingsCollideExactly(ns: string, a: Entry, b: Entry)
    requires a.rule == PRoleBinding && b.rule == PRoleBinding && a.obj.name == b.obj.name
    requires a.obj.ns == "" && b.obj.ns != ""
    ensures Identity(ns, a) == Identity(ns, b) <==> ns == b.obj.ns
    ensures forall spec :: TargetKey(ns, spec, a) == TargetKey(ns, spec, b) <==> ns == b.obj.ns
  {
  }

  // ---------- preparing is idempotent ----------

  lemma IsoStepsTwice(cfg: Config, steps: seq<Step>)
    ensures IsoSteps(cfg, IsoSteps(cfg, steps)) == IsoSteps(cfg, steps)
  {
  }

  lemma SubjectsTwice(ns: string, subjects: seq<Subject>)
    ensures SubjectsIn(ns, SubjectsIn(ns, subjects)) == SubjectsIn(ns, subjects)
  {
  }

  lemma TaskStepsTwice(cfg: Config, name: string, steps: seq<Step>)
    ensures var once := TaskSteps(cfg, name, steps);
            once.Some? ==> TaskSteps(cfg, name, once.value) == once
  {
    hide AllowedImage, IsoSteps;
    IsoStepsTwice(cfg, steps);
    var once := TaskSteps(cfg, name, steps);
    if name != MODIFY_ISO && once.Some? {
      assert once.value[0 := once.value[0].(image := AllowedImage(cfg, name).value)] == once.value;
    }
  }

  /** Preparing a prepared object, marked or not, changes nothing. */
  lemma PreparedTwice(rule: Rule, cfg: Config, ns: string, spec: Spec, o: Obj, x: Obj)
    requires Prepared(rule, cfg, ns, spec, o).Some?
    requires var p := Prepared(rule, cfg, ns, spec, o).value;
             KeyOf(x) == KeyOf(p) && x.payload == p.payload && p.labels.Keys <= x.labels.Keys
    requires rule.TTask? ==> TASKS_VERSION_LABEL in x.labels && x.labels[TASKS_VERSION_LABEL] == TASKS_VERSION
    ensures Prepared(rule, cfg, ns, spec, x) == Some(x)
  {
    hide TaskSteps, SubjectsIn;
    TaskStepsTwice(cfg, o.name, o.payload.steps);
    SubjectsTwice(ns, o.payload.subjects);
    if rule.TTask? {
      assert x.labels[TASKS_VERSION_LABEL := TASKS_VERSION] == x.labels;
    }
  }

  /** Marking an object for the CR adds labels and annotations, and nothing else that preparing looks at. */
  lemma MarkedKeeps(inst: CR, rule: Rule, p: Obj)
    ensures var x := MarkedFor(inst, RecipeOf(rule, false), p).obj;
            && KeyOf(x) == KeyOf(p) && x.payload == p.payload && p.labels.Keys <= x.labels.Keys
            && (TASKS_VERSION_LABEL in p.labels ==> TASKS_VERSION_LABEL in x.labels
                                                    && x.labels[TASKS_VERSION_LABEL] == p.labels[TASKS_VERSION_LABEL])
  {
    var r := RecipeOf(rule, false);
    VersionLabelApart(inst.labels, r);
    hide AppLabels;
  }

  lemma IdentityStays(ns: string, cfg: Config, spec: Spec, e: Entry, x: Obj)
    requires Prepared(e.rule, cfg, ns, spec, e.obj).Some?
    requires KeyOf(x) == KeyOf(Prepared(e.rule, cfg, ns, spec, e.obj).value)
    ensures Identity(ns, Entry(e.rule, x)) == Identity(ns, e)
  {
    hide TaskSteps, SubjectsIn;
  }

  lemma TaskVersion(cfg: Config, ns: string, spec: Spec, o: Obj)
    requires Prepared(TTask, cfg, ns, spec, o).Some?
    ensures var p := Prepared(TTask, cfg, ns, spec, o).value;
            TASKS_VERSION_LABEL in p.labels && p.labels[TASKS_VERSION_LABEL] == TASKS_VERSION
  {
    hide TaskSteps;
  }

  /** An entry written back after a pass is expected unchanged by the next pass for the same CR: marking and
      preparing are idempotent. A CR with other labels only adds to the expected labels. */
  lemma PreparedAgain(inst: CR, cfg: Config, e: Entry)
    requires Expected(inst, cfg, e).Some?
    ensures var x := Expected(inst, cfg, e).value;
            && Prepared(e.rule, cfg, inst.nn.ns, inst.spec, x) == Some(x)
            && Identity(inst.nn.ns, Entry(e.rule, x)) == Identity(inst.nn.ns, e)
  {
    hide Prepared, MarkedFor, Identity;
    var x := Expected(inst, cfg, e).value;
    var p := Prepared(e.rule, cfg, inst.nn.ns, inst.spec, e.obj).value;
    MarkedKeeps(inst, e.rule, p);
    IdentityStays(inst.nn.ns, cfg, inst.spec, e, x);
    if e.rule.TTask? {
      TaskVersion(cfg, inst.nn.ns, inst.spec, e.obj);
    }
    PreparedTwice(e.rule, cfg, inst.nn.ns, inst.spec, e.obj, x);
  }

  lemma VersionLabelApart(labels: Option<map<string, string>>, r: Recipe)
    ensures TASKS_VERSION_LABEL !in AppLabels(labels, r.operandName, r.component)
  {
    assert TASKS_VERSION_LABEL[0] == 't';
    assert NAME_LABEL[0] == PART_OF_LABEL[0] == VERSION_LABEL[0] == MANAGED_BY_LABEL[0] == COMPONENT_LABEL[0] == 'a';
  }

  lemma ExpectedAgain(inst: CR, cfg: Config, e: Entry)
    requires Expected(inst, cfg, e).Some?
    ensures Expected(inst, cfg, Entry(e.rule, Expected(inst, cfg, e).value)) == Expected(inst, cfg, e)
  {
    PreparedAgain(inst, cfg, e);
    var x := Expected(inst, cfg, e).value;
    var r := RecipeOf(e.rule, false);
    assert x.labels + AppLabels(inst.labels, r.operandName, r.component) == x.labels;
    if inst.nn.name != "" {
      assert x.annotations + OwnerAnnotations(inst) == x.annotations;
    }
  }
}

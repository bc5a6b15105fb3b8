/** What the cluster holds when the CR says Deployed, field by field: what the bundle ships, adapted to the CR. */
module Contents {
  import opened Kube
  import opened ApiServer
  import opened Labels
  import opened Cache
  import opened Ownership
  import opened Resource
  import opened Operands
  import opened StatusReport
  import opened Controller
  import opened Tracking
  import opened Expectations
  import opened CacheRefinement
  import opened Convergence
  import opened Runs

  // ---------- what an entry calls for ----------

  /** The one entry that is left out: the service account of the pipelines outside the system namespaces. */
  predicate LeftOut(e: Entry, spec: Spec) {
    && e.rule.PServiceAccount? && e.obj.name == "pipeline"
    && !("openshift-" <= spec.pipelinesNs) && !("kube-" <= spec.pipelinesNs)
  }

  /** Where the object of an entry belongs. */
  function Where(c: CR, e: Entry): Key {
    match e.rule
    case TTask =>
      Key(Task, if c.spec.tasksNs.Some? && c.spec.tasksNs.value != "" then c.spec.tasksNs.value else c.nn.ns,
          e.obj.name)
    case TClusterRole => Key(ClusterRole, e.obj.ns, e.obj.name)
    case TServiceAccount => Key(ServiceAccount, c.nn.ns, e.obj.name)
    case TRoleBinding => Key(RoleBinding, c.nn.ns, e.obj.name)
    case PClusterRole => Key(ClusterRole, e.obj.ns, e.obj.name)
    case PPipeline => Key(Pipeline, c.spec.pipelinesNs, e.obj.name)
    case PConfigMap => Key(ConfigMap, c.spec.pipelinesNs, e.obj.name)
    case PRoleBinding => Key(RoleBinding, if e.obj.ns == "" then c.nn.ns else e.obj.ns, e.obj.name)
    case PServiceAccount => Key(ServiceAccount, if e.obj.ns == "" then c.nn.ns else e.obj.ns, e.obj.name)
  }

  /** The image of a task's first step. */
  predicate ImageOfTask(cfg: Config, task: string, image: string) {
    || (task == "cleanup-vm" && image == cfg.cleanupVm)
    || (task == "copy-template" && image == cfg.copyTemplate)
    || (task == "modify-data-object" && image == cfg.modifyDataObject)
    || (task == "create-vm-from-template" && image == cfg.createVm)
    || (task == "disk-virt-customize" && image == cfg.diskVirtCustomize)
    || (task == "disk-virt-sysprep" && image == cfg.diskVirtSysprep)
    || (task == "modify-vm-template" && image == cfg.modifyVmTemplate)
    || (task == "wait-for-vmi-status" && image == cfg.waitForVmi)
    || (task == "create-vm-from-manifest" && image == cfg.createVm)
    || (task == "generate-ssh-keys" && image == cfg.sshKeys)
    || (task == "execute-in-vm" && image == cfg.cleanupVm)
  }

  /** Step number i of a task: which image it gets, or keeps. */
  predicate StepOf(cfg: Config, task: string, i: nat, shipped: Step, stored: Step) {
    && stored.name == shipped.name
    && if task == "modify-windows-iso-file" then
         if shipped.name == "create-iso-file" then stored.image == cfg.modifyDataObject
         else if shipped.name == "convert-iso-file" || shipped.name == "modify-iso-file"
         then stored.image == cfg.diskVirtCustomize
         else stored.image == shipped.image
       else if i == 0 then ImageOfTask(cfg, task, stored.image)
       else stored.image == shipped.image
  }

  predicate StepsOf(cfg: Config, task: string, shipped: seq<Step>, stored: seq<Step>) {
    && |stored| == |shipped|
    && (task != "modify-windows-iso-file" ==> shipped != [])
    && forall i | 0 <= i < |shipped| :: StepOf(cfg, task, i, shipped[i], stored[i])
  }

  /** A parameter of a pipeline: exactly those for virtio containers get the operator's image. */
  predicate ParamOf(cfg: Config, shipped: Param, stored: Param) {
    && stored.name == shipped.name
    && stored.default == if "virtioContainer" <= shipped.name then cfg.virtio else shipped.default
  }

  predicate ParamsOf(cfg: Config, shipped: seq<Param>, stored: seq<Param>) {
    && |stored| == |shipped|
    && forall i | 0 <= i < |shipped| :: ParamOf(cfg, shipped[i], stored[i])
  }

  predicate SubjectsOf(ns: string, shipped: seq<Subject>, stored: seq<Subject>) {
    && |stored| == |shipped|
    && forall i | 0 <= i < |shipped| :: stored[i] == Subject(shipped[i].name, ns)
  }

  /** The payload that an entry calls for, list by list. A service account has none of its own. */
  predicate PayloadOf(cfg: Config, c: CR, e: Entry, p: Payload) {
    var q := e.obj.payload;
    match e.rule
    case TTask => p == q.(steps := p.steps) && StepsOf(cfg, e.obj.name, q.steps, p.steps)
    case TClusterRole => p == q
    case TServiceAccount => true
    case TRoleBinding => p == q
    case PClusterRole => p == q
    case PPipeline => p == q.(params := p.params) && ParamsOf(cfg, q.params, p.params)
    case PConfigMap => p == q
    case PRoleBinding => p == q.(subjects := p.subjects) && SubjectsOf(c.nn.ns, q.subjects, p.subjects)
    case PServiceAccount => true
  }

  predicate LabelIs(labels: map<string, string>, k: string, v: string) {
    k in labels && labels[k] == v
  }

  /** A label of the CR, empty if the CR does not have it. */
  function Read(labels: map<string, string>, k: string): string {
    if k in labels then labels[k] else ""
  }

  predicate OperatorLabel(k: string) {
    || k == "app.kubernetes.io/name" || k == "app.kubernetes.io/component" || k == "app.kubernetes.io/managed-by"
    || k == "app.kubernetes.io/part-of" || k == "app.kubernetes.io/version" || k == "tekton-tasks.kubevirt.io/version"
  }

  predicate OperatorAnnotation(k: string) {
    k == "operator-sdk/primary-resource" || k == "operator-sdk/primary-resource-type"
  }

  /** The labels that an entry calls for: those of the operator, those copied from the CR, and its own. */
  predicate LabelsOf(c: CR, e: Entry, labels: map<string, string>) {
    var tasks := e.rule.TTask? || e.rule.TClusterRole? || e.rule.TServiceAccount? || e.rule.TRoleBinding?;
    && LabelIs(labels, "app.kubernetes.io/name", if tasks then "tekton-tasks" else "tekton-pipelines")
    && LabelIs(labels, "app.kubernetes.io/component", if tasks then "tektonTasks" else "tektonPipelines")
    && LabelIs(labels, "app.kubernetes.io/managed-by", "tekton-tasks-operator")
    && (c.labels.Some? ==>
          && LabelIs(labels, "app.kubernetes.io/part-of", Read(c.labels.value, "app.kubernetes.io/part-of"))
          && LabelIs(labels, "app.kubernetes.io/version", Read(c.labels.value, "app.kubernetes.io/version")))
    && (e.rule.TTask? ==> LabelIs(labels, "tekton-tasks.kubevirt.io/version", "v0.14.0"))
    && (forall k <- e.obj.labels | !OperatorLabel(k) :: LabelIs(labels, k, e.obj.labels[k]))
  }

  /** The annotations: the owner's name and type, and the entry's own. */
  predicate AnnotationsOf(c: CR, e: Entry, annotations: map<string, string>) {
    && (c.nn.name != "" ==>
          && LabelIs(annotations, "operator-sdk/primary-resource", c.nn.ns + "/" + c.nn.name)
          && LabelIs(annotations, "operator-sdk/primary-resource-type",
                     "TektonTasks" + "." + "tektontasks.kubevirt.io"))
    && (forall k <- e.obj.annotations | !OperatorAnnotation(k) :: LabelIs(annotations, k, e.obj.annotations[k]))
  }

  /** The lists whose objects carry no labels and annotations but these. */
  predicate OnlyThese(e: Entry, o: Obj) {
    e.rule.PClusterRole? || e.rule.PServiceAccount? ==>
      && (forall k <- o.labels :: OperatorLabel(k) || k in e.obj.labels)
      && (forall k <- o.annotations :: OperatorAnnotation(k) || k in e.obj.annotations)
  }

  /** The stored object is what the entry calls for. */
  predicate Answers(cfg: Config, c: CR, e: Entry, o: Obj) {
    && KeyOf(o) == Where(c, e) && !o.terminating && o.ownerRefs == []
    && PayloadOf(cfg, c, e, o.payload) && LabelsOf(c, e, o.labels) && AnnotationsOf(c, e, o.annotations)
    && OnlyThese(e, o)
  }

  /** Everything that the entries call for is stored. */
  ghost predicate AllAnswered(w: World, cfg: Config, c: CR, es: seq<Entry>) {
    forall e <- es :: !LeftOut(e, c.spec) ==> Where(c, e) in w.objs && Answers(cfg, c, e, w.objs[Where(c, e)])
  }

  // ---------- a done entry is answered ----------

  lemma SkippedIsLeftOut(e: Entry, spec: Spec)
    ensures Skipped(e, spec) <==> LeftOut(e, spec)
  {
  }

  lemma PreparedSteps(cfg: Config, task: string, steps: seq<Step>)
    ensures TaskSteps(cfg, task, steps).Some? ==> StepsOf(cfg, task, steps, TaskSteps(cfg, task, steps).value)
  {
    IsoStepsEach(cfg, steps);
    hide IsoSteps;
  }

  lemma UpdatedParams(cfg: Config, params: seq<Param>)
    ensures ParamsOf(cfg, params, VirtioParams(cfg.virtio, params))
  {
    forall i | 0 <= i < |params|
      ensures |VirtioParams(cfg.virtio, params)| == |params|
      ensures ParamOf(cfg, params[i], VirtioParams(cfg.virtio, params)[i])
    {
      VirtioParamsAt(cfg.virtio, params, i);
    }
    if params == [] {
      assert VirtioParams(cfg.virtio, params) == [];
    }
  }

  /** The payload and the labels after preparing, before marking. */
  function OwnPayload(cfg: Config, ns: string, e: Entry): Payload
    requires e.rule.TTask? ==> TaskSteps(cfg, e.obj.name, e.obj.payload.steps).Some?
  {
    match e.rule
    case TTask => e.obj.payload.(steps := TaskSteps(cfg, e.obj.name, e.obj.payload.steps).value)
    case PRoleBinding => e.obj.payload.(subjects := SubjectsIn(ns, e.obj.payload.subjects))
    case _ => e.obj.payload
  }

  function OwnLabels(e: Entry): map<string, string> {
    if e.rule.TTask? then e.obj.labels[TASKS_VERSION_LABEL := TASKS_VERSION] else e.obj.labels
  }

  function OperandName(rule: Rule): string {
    if OfTasks(rule) then "tekton-tasks" else "tekton-pipelines"
  }

  function OperandComponent(rule: Rule): string {
    if OfTasks(rule) then "tektonTasks" else "tektonPipelines"
  }

  function OwnerMarks(c: CR): map<string, string> {
    if c.nn.name == "" then map[] else OwnerAnnotations(c)
  }

  lemma PreparedParts(cfg: Config, c: CR, e: Entry)
    requires Prepared(e.rule, cfg, c.nn.ns, c.spec, e.obj).Some? && WellKinded(e)
    ensures e.rule.TTask? ==> TaskSteps(cfg, e.obj.name, e.obj.payload.steps).Some?
    ensures var p := Prepared(e.rule, cfg, c.nn.ns, c.spec, e.obj).value;
            && KeyOf(p) == Where(c, e) && p.labels == OwnLabels(e) && p.annotations == e.obj.annotations
            && p.payload == OwnPayload(cfg, c.nn.ns, e)
  {
    hide TaskSteps, SubjectsIn;
  }

  lemma MarkedParts(c: CR, rule: Rule, p: Obj)
    ensures var x := MarkedFor(c, RecipeOf(rule, false), p).obj;
            && KeyOf(x) == KeyOf(p) && x.ownerRefs == [] && x.payload == p.payload
            && x.labels == p.labels + AppLabels(c.labels, OperandName(rule), OperandComponent(rule))
            && x.annotations == p.annotations + OwnerMarks(c)
  {
    hide AppLabels, OwnerAnnotations;
    assert p.annotations + map[] == p.annotations;
  }

  /** What preparing and marking make of an entry. */
  lemma ExpectedParts(cfg: Config, c: CR, e: Entry)
    requires Expected(c, cfg, e).Some? && WellKinded(e)
    ensures e.rule.TTask? ==> TaskSteps(cfg, e.obj.name, e.obj.payload.steps).Some?
    ensures var x := Expected(c, cfg, e).value;
            && KeyOf(x) == Where(c, e) && x.ownerRefs == [] && x.payload == OwnPayload(cfg, c.nn.ns, e)
            && x.labels == OwnLabels(e) + AppLabels(c.labels, OperandName(e.rule), OperandComponent(e.rule))
            && x.annotations == e.obj.annotations + OwnerMarks(c)
  {
    hide Prepared, MarkedFor, Where, OwnPayload, OwnLabels, AppLabels, OwnerMarks;
    PreparedParts(cfg, c, e);
    MarkedParts(c, e.rule, Prepared(e.rule, cfg, c.nn.ns, c.spec, e.obj).value);
  }

  lemma ExpectedPayload(cfg: Config, c: CR, e: Entry, o: Obj)
    requires Expected(c, cfg, e).Some? && WellKinded(e)
    requires o.payload == SyncedPayload(UpdateOf(e.rule), cfg, Expected(c, cfg, e).value.payload, o.payload)
    ensures PayloadOf(cfg, c, e, o.payload)
  {
    hide Expected, TaskSteps, SubjectsIn, StepsOf, ParamsOf, VirtioParams;
    ExpectedParts(cfg, c, e);
    PreparedSteps(cfg, e.obj.name, e.obj.payload.steps);
    UpdatedParams(cfg, e.obj.payload.params);
    SubjectsEach(c.nn.ns, e.obj.payload.subjects);
  }

  lemma ExpectedLabels(c: CR, e: Entry, labels: map<string, string>)
    requires var x := OwnLabels(e) + AppLabels(c.labels, OperandName(e.rule), OperandComponent(e.rule));
             forall k <- x :: LabelIs(labels, k, x[k])
    ensures LabelsOf(c, e, labels)
  {
    var own, name, component := OwnLabels(e), OperandName(e.rule), OperandComponent(e.rule);
    var x := own + AppLabels(c.labels, name, component);
    VersionLabelApart(c.labels, RecipeOf(e.rule, false));
    LabelsWritten(c.labels, name, component, own, "");
    AppLabelsIn(c.labels, name, component);
    forall k <- e.obj.labels | !OperatorLabel(k)
      ensures LabelIs(labels, k, e.obj.labels[k])
    {
      LabelsWritten(c.labels, name, component, own, k);
      assert k in x && x[k] == e.obj.labels[k];
    }
    hide AppLabels;
    assert TASKS_VERSION_LABEL !in AppLabels(c.labels, name, component);
    assert NAME_LABEL in x && COMPONENT_LABEL in x && MANAGED_BY_LABEL in x;
    assert e.rule.TTask? ==> TASKS_VERSION_LABEL in x && x[TASKS_VERSION_LABEL] == TASKS_VERSION;
  }

  lemma AppLabelsIn(from: Option<map<string, string>>, name: string, component: string)
    ensures var labels := AppLabels(from, name, component);
            && NAME_LABEL in labels && COMPONENT_LABEL in labels && MANAGED_BY_LABEL in labels
            && forall k <- labels :: OperatorLabel(k)
  {
  }

  lemma OwnerMarksSay(c: CR)
    requires c.nn.name != ""
    ensures var marks := OwnerMarks(c);
            && LabelIs(marks, "operator-sdk/primary-resource", c.nn.ns + "/" + c.nn.name)
            && LabelIs(marks, "operator-sdk/primary-resource-type", "TektonTasks" + "." + "tektontasks.kubevirt.io")
            && forall k <- marks :: OperatorAnnotation(k)
  {
    assert NAMESPACED_NAME != OWNER_TYPE by { assert |NAMESPACED_NAME| != |OWNER_TYPE|; }
  }

  lemma ExpectedAnnotations(c: CR, e: Entry, annotations: map<string, string>)
    requires var x := e.obj.annotations + OwnerMarks(c); forall k <- x :: LabelIs(annotations, k, x[k])
    ensures AnnotationsOf(c, e, annotations)
  {
    hide OwnerMarks;
    var x := e.obj.annotations + OwnerMarks(c);
    if c.nn.name != "" {
      OwnerMarksSay(c);
      forall k <- OwnerMarks(c)
        ensures LabelIs(annotations, k, OwnerMarks(c)[k])
      {
        assert k in x;
      }
    }
    NoMarks(c);
    forall k <- e.obj.annotations | !OperatorAnnotation(k)
      ensures LabelIs(annotations, k, e.obj.annotations[k])
    {
      assert k in x && k !in OwnerMarks(c);
    }
  }

  lemma NoMarks(c: CR)
    ensures forall k <- OwnerMarks(c) :: OperatorAnnotation(k)
  {
  }

  /** The lists that get no labels and annotations but the expected ones. */
  lemma ExpectedOnly(cfg: Config, c: CR, e: Entry, o: Obj)
    requires Expected(c, cfg, e).Some? && WellKinded(e)
    requires var x := Expected(c, cfg, e).value;
             CopiesMeta(UpdateOf(e.rule)) ==> o.labels.Keys <= x.labels.Keys && o.annotations.Keys <= x.annotations.Keys
    ensures OnlyThese(e, o)
  {
    hide Expected, AppLabels, OwnerMarks;
    ExpectedParts(cfg, c, e);
    AppLabelsIn(c.labels, OperandName(e.rule), OperandComponent(e.rule));
    NoMarks(c);
    var x := Expected(c, cfg, e).value;
    if e.rule.PClusterRole? || e.rule.PServiceAccount? {
      forall k <- o.labels
        ensures OperatorLabel(k) || k in e.obj.labels
      {
        assert k in x.labels;
      }
      forall k <- o.annotations
        ensures OperatorAnnotation(k) || k in e.obj.annotations
      {
        assert k in x.annotations;
      }
    }
  }

  /** What a pass calls done is what the entry it started from calls for. */
  lemma DoneAnswers(w: World, cfg: Config, c: CR, e: Entry, d: Entry)
    requires WellKinded(e) && d.rule == e.rule && Expected(c, cfg, e) == Some(d.obj) && Present(w, cfg, d)
    requires KeyOf(d.obj) in w.objs ==> KeyOf(w.objs[KeyOf(d.obj)]) == KeyOf(d.obj)
    ensures Where(c, e) in w.objs && Answers(cfg, c, e, w.objs[Where(c, e)])
  {
    hide Expected, PayloadOf, LabelsOf, AnnotationsOf, OnlyThese, AppLabels, OwnerMarks, OwnLabels, OwnPayload, Where,
         SyncedPayload;
    var o := w.objs[KeyOf(d.obj)];
    ExpectedParts(cfg, c, e);
    ExpectedPayload(cfg, c, e, o);
    assert forall k <- d.obj.labels :: LabelIs(o.labels, k, d.obj.labels[k]);
    ExpectedLabels(c, e, o.labels);
    assert forall k <- d.obj.annotations :: LabelIs(o.annotations, k, d.obj.annotations[k]);
    ExpectedAnnotations(c, e, o.annotations);
    ExpectedOnly(cfg, c, e, o);
  }

  lemma AllDoneAnswers(w: World, home: Name, cfg: Config, c: CR, es: seq<Entry>, es': seq<Entry>)
    requires Valid(w, home) && (forall e <- es :: WellKinded(e))
    requires WrittenBack(cfg, c, es, es') && (forall d <- es' :: Done(w, cfg, c, d))
    ensures AllAnswered(w, cfg, c, es)
  {
    hide Expected, Present, Skipped, Answers, Where, LeftOut, WellKinded, Valid;
    forall e <- es | !LeftOut(e, c.spec)
      ensures Where(c, e) in w.objs && Answers(cfg, c, e, w.objs[Where(c, e)])
    {
      var i :| 0 <= i < |es| && es[i] == e;
      SkippedIsLeftOut(e, c.spec);
      var d := es'[i];
      assert d in es' && Done(w, cfg, c, d);
      StillKept(cfg, c, e, d);
      KeysMatch(w, home, KeyOf(d.obj));
      DoneAnswers(w, cfg, c, e, d);
    }
  }

  lemma KeysMatch(w: World, home: Name, k: Key)
    requires Valid(w, home)
    ensures k in w.objs ==> KeyOf(w.objs[k]) == k
  {
  }

  lemma StillKept(cfg: Config, c: CR, e: Entry, d: Entry)
    requires d.rule == e.rule && Expected(c, cfg, e) == Some(d.obj) && !Skipped(e, c.spec)
    ensures !Skipped(d, c.spec)
  {
    hide TaskSteps, SubjectsIn, AppLabels, OwnerAnnotations;
  }

  /** A deployed CR holds what its entries call for: when a pass that users leave alone ends with phase Deployed,
      the object of every entry but the one left out is stored in its place, with its payload, images,
      parameters, subjects, labels, annotations and owner. Calls may fail. */
  lemma DeployedAnswers(w: World, env: Env, m: Memory)
    requires MemoryOk(w, env, m)
    requires w.cr.Some? && !w.cr.value.deleting && !IsPaused(w.cr.value) && w.cr.value.spec.deploy && w.others == 0
    requires var out := Pass(w, env, m, false);
             && Quiet(env, w.calls, out.w.calls)
             && out.verdict == Finished && out.w.cr.Some? && out.w.cr.value.status.phase == Deployed
    ensures var out := Pass(w, env, m, false).w; AllAnswered(out, env.cfg, out.cr.value, m.entries)
  {
    hide Pass, Quiet, IsPaused, Done, WrittenBack, Kept, AllAnswered, WellKinded, Valid, MemoryOk;
    DeployedIsTruthful(w, env, m);
    var out := Pass(w, env, m, false);
    assert Valid(w, env.home) && forall e <- m.entries :: WellKinded(e) by { MemoryKinds(w, env, m); }
    PassKept(w, env, m, false);
    KeptValid(w, out.w, env.home);
    AllDoneAnswers(out.w, env.home, env.cfg, out.w.cr.value, m.entries, out.m.entries);
  }

  lemma MemoryKinds(w: World, env: Env, m: Memory)
    requires MemoryOk(w, env, m)
    ensures Valid(w, env.home) && forall e <- m.entries :: WellKinded(e)
  {
    forall e <- m.entries
      ensures WellKinded(e)
    {
      assert EntryHonest(w, m.versions, env.cfg, env.home.ns, m.lastSpec, e);
    }
  }

  // ---------- what a run leaves of the bundle ----------

  /** An entry as the passes of a process may have adapted it since the bundle shipped it. */
  predicate Adapted(ns: string, a: Entry, b: Entry) {
    && b.rule == a.rule && b.obj.name == a.obj.name && b.obj.kind == a.obj.kind
    && (a.rule.TClusterRole? || a.rule.PClusterRole? ==> b.obj.ns == a.obj.ns)
    && (a.rule.PRoleBinding? || a.rule.PServiceAccount? ==> b.obj.ns == a.obj.ns || (a.obj.ns == "" && b.obj.ns == ns))
    && AdaptedPayload(a, b)
    && (forall k <- a.obj.labels | !OperatorLabel(k) :: LabelIs(b.obj.labels, k, a.obj.labels[k]))
    && (forall k <- b.obj.labels :: OperatorLabel(k) || k in a.obj.labels)
    && (forall k <- a.obj.annotations | !OperatorAnnotation(k) :: LabelIs(b.obj.annotations, k, a.obj.annotations[k]))
    && (forall k <- b.obj.annotations :: OperatorAnnotation(k) || k in a.obj.annotations)
  }

  /** Only images of steps that get one and namespaces of subjects may differ. */
  predicate AdaptedPayload(a: Entry, b: Entry) {
    var p, q := a.obj.payload, b.obj.payload;
    && q == (if a.rule.TTask? then p.(steps := q.steps) else if a.rule.PRoleBinding? then p.(subjects := q.subjects)
             else p)
    && |q.steps| == |p.steps| && |q.subjects| == |p.subjects|
    && (forall i | 0 <= i < |p.steps| :: AdaptedStep(a.obj.name, i, p.steps[i], q.steps[i]))
    && (forall i | 0 <= i < |p.subjects| :: q.subjects[i].name == p.subjects[i].name)
  }

  predicate AdaptedStep(task: string, i: nat, p: Step, q: Step) {
    && q.name == p.name
    && (q.image == p.image
        || (if task == "modify-windows-iso-file"
            then p.name == "create-iso-file" || p.name == "convert-iso-file" || p.name == "modify-iso-file"
            else i == 0))
  }

  /** What answers to an adapted entry answers to the shipped one. */
  lemma AdaptedAnswers(cfg: Config, c: CR, a: Entry, b: Entry, o: Obj)
    requires Adapted(c.nn.ns, a, b) && Answers(cfg, c, b, o)
    ensures Answers(cfg, c, a, o) && Where(c, a) == Where(c, b)
  {
    AdaptedPayloadAnswers(cfg, c, a, b, o.payload);
    hide PayloadOf, AdaptedPayload, OperatorLabel, OperatorAnnotation;
  }

  lemma AdaptedPayloadAnswers(cfg: Config, c: CR, a: Entry, b: Entry, p: Payload)
    requires Adapted(c.nn.ns, a, b) && PayloadOf(cfg, c, b, p)
    ensures PayloadOf(cfg, c, a, p)
  {
    hide ImageOfTask;
  }

  lemma AdaptedItself(ns: string, a: Entry)
    ensures Adapted(ns, a, a)
  {
    hide OperatorLabel, OperatorAnnotation;
  }

  /** Reconciling an adapted entry leaves an adapted one, whether or not it fails. */
  lemma EntryAdapts(w: World, env: Env, c: Versions, inst: CR, a: Entry, b: Entry)
    requires Adapted(inst.nn.ns, a, b) && WellKinded(a)
    ensures Adapted(inst.nn.ns, a, ReconcileEntry(w, env, c, inst, b, false).entries[0])
  {
    hide CreateOrUpdate, Prepared, MarkedFor, Remember, Adapted, Expected;
    var p := Prepared(b.rule, env.cfg, inst.nn.ns, inst.spec, b.obj);
    if !Skipped(b, inst.spec) && p.Some? {
      ExpectedIs(inst, env.cfg, b);
      ExpectedAdapted(env.cfg, inst, a, b);
    }
  }

  lemma ExpectedIs(inst: CR, cfg: Config, e: Entry)
    ensures var p := Prepared(e.rule, cfg, inst.nn.ns, inst.spec, e.obj);
            Expected(inst, cfg, e)
            == if p.None? then None else Some(MarkedFor(inst, RecipeOf(e.rule, false), p.value).obj)
  {
  }

  lemma ExpectedAdapted(cfg: Config, c: CR, a: Entry, b: Entry)
    requires Adapted(c.nn.ns, a, b) && WellKinded(a) && Expected(c, cfg, b).Some?
    ensures Adapted(c.nn.ns, a, Entry(b.rule, Expected(c, cfg, b).value))
  {
    hide Expected, AppLabels, OwnerMarks, TaskSteps, SubjectsIn, OperatorLabel, OperatorAnnotation, AdaptedPayload,
         OwnPayload;
    ExpectedParts(cfg, c, b);
    AppLabelsIn(c.labels, OperandName(b.rule), OperandComponent(b.rule));
    NoMarks(c);
    assert OperatorLabel(TASKS_VERSION_LABEL) by { VersionLabelIsOperators(); }
    AdaptedOwnPayload(cfg, c.nn.ns, a, b, Expected(c, cfg, b).value);
  }

  lemma VersionLabelIsOperators()
    ensures OperatorLabel(TASKS_VERSION_LABEL)
  {
  }

  lemma AdaptedOwnPayload(cfg: Config, ns: string, a: Entry, b: Entry, x: Obj)
    requires Adapted(ns, a, b) && (b.rule.TTask? ==> TaskSteps(cfg, b.obj.name, b.obj.payload.steps).Some?)
    requires x.payload == OwnPayload(cfg, ns, b)
    ensures AdaptedPayload(a, Entry(b.rule, x))
  {
    hide TaskSteps, SubjectsIn, ImageOfTask;
    PreparedSteps(cfg, b.obj.name, b.obj.payload.steps);
    SubjectsEach(ns, b.obj.payload.subjects);
  }

  /** The lists of a process and the bundle, position by position. */
  ghost predicate AllAdapted(ns: string, bundle: seq<Entry>, es: seq<Entry>) {
    && |es| == |bundle|
    && forall i | 0 <= i < |bundle| :: WellKinded(bundle[i]) && Adapted(ns, bundle[i], es[i])
  }

  lemma {:induction false} ListAdapts(w: World, env: Env, c: Versions, inst: CR, bundle: seq<Entry>, es: seq<Entry>)
    requires AllAdapted(inst.nn.ns, bundle, es)
    ensures AllAdapted(inst.nn.ns, bundle, ReconcileAll(w, env, c, inst, es, false).entries)
    decreases |es|
  {
    hide ReconcileEntry, Adapted, WellKinded;
    if es != [] {
      var first := ReconcileEntry(w, env, c, inst, es[0], false);
      assert first.entries == [first.entries[0]];
      EntryAdapts(w, env, c, inst, bundle[0], es[0]);
      ListAdapts(first.w, env, first.versions, inst, bundle[1..], es[1..]);
    }
  }

  lemma DeployAdapts(w: World, env: Env, m: Memory, inst: CR, bundle: seq<Entry>)
    requires Valid(w, env.home) && Copy(w, env.home, inst) && AllAdapted(env.home.ns, bundle, m.entries)
    ensures AllAdapted(env.home.ns, bundle, Deploy(w, env, m, inst, false).m.entries)
  {
    hide StatusWrite, ErrorHandled, ReconcileAll, PreStatus, Aggregated, Copy, Valid, Kept, AllAdapted;
    var s := PreStatus(env.cfg, inst.status, inst.gen);
    StatusWriteKeeps(w, env, inst, s);
    var pre := StatusWrite(w, env, inst.(status := s));
    CopyHome(pre.w, env.home, pre.inst);
    ListAdapts(pre.w, env, m.versions, pre.inst, bundle, m.entries);
  }

  lemma PassAdapts(w: World, env: Env, m: Memory, bundle: seq<Entry>)
    requires Valid(w, env.home) && AllAdapted(env.home.ns, bundle, m.entries)
    ensures AllAdapted(env.home.ns, bundle, Pass(w, env, m, false).m.entries)
  {
    hide GetCr, ListCrs, Deploy, ErrorHandled, ResourceWrite, CleanupPass, Without, Copy, Valid, Evolves, AllAdapted,
         IsPaused, StatusWrite;
    ReadEffect(w, env);
    var got := GetCr(w, env);
    if got.res.Ok? {
      var inst := got.res.value;
      ListEffect(got.w, env);
      CopyEvolves(got.w, ListCrs(got.w, env).w, env.home, inst);
      DeployAdapts(ListCrs(got.w, env).w, env, ClearedIfNeeded(m, inst.spec), inst, bundle);
    }
  }

  lemma {:induction false} RunAdapts(w: World, env: Env, m: Memory, bundle: seq<Entry>, steps: seq<Event>)
    requires Valid(w, env.home) && AllAdapted(env.home.ns, bundle, m.entries) && forall e <- bundle :: WellKinded(e)
    ensures AllAdapted(env.home.ns, bundle, Run(w, env, m, bundle, steps, false).m.entries)
    decreases |steps|
  {
    hide Pass, Valid, Kept, Adapted, WellKinded;
    if steps != [] {
      if steps[0].Restart? {
        BundleAdapted(env.home.ns, bundle);
        RunAdapts(w, env, Booted(bundle), bundle, steps[1..]);
      } else {
        PassKept(w, env, m, false);
        KeptValid(w, Pass(w, env, m, false).w, env.home);
        PassAdapts(w, env, m, bundle);
        RunAdapts(Pass(w, env, m, false).w, env, Pass(w, env, m, false).m, bundle, steps[1..]);
      }
    }
  }

  lemma BundleAdapted(ns: string, bundle: seq<Entry>)
    requires forall e <- bundle :: WellKinded(e)
    ensures AllAdapted(ns, bundle, bundle)
  {
    hide Adapted, WellKinded;
    forall i | 0 <= i < |bundle|
      ensures WellKinded(bundle[i]) && Adapted(ns, bundle[i], bundle[i])
    {
      assert bundle[i] in bundle;
      AdaptedItself(ns, bundle[i]);
    }
  }

  lemma AdaptedAllAnswered(w: World, cfg: Config, c: CR, bundle: seq<Entry>, es: seq<Entry>)
    requires AllAdapted(c.nn.ns, bundle, es) && AllAnswered(w, cfg, c, es)
    ensures AllAnswered(w, cfg, c, bundle)
  {
    hide Answers, Where;
    forall a <- bundle | !LeftOut(a, c.spec)
      ensures Where(c, a) in w.objs && Answers(cfg, c, a, w.objs[Where(c, a)])
    {
      var i :| 0 <= i < |bundle| && bundle[i] == a;
      var b := es[i];
      assert b in es && !LeftOut(b, c.spec);
      AdaptedAnswers(cfg, c, a, b, w.objs[Where(c, b)]);
    }
  }

  /** Nothing of the bundle is lost on the way: after any run of passes and restarts, under any faults and edits,
      whatever the CR was like meanwhile, a pass that users leave alone and that ends with phase Deployed leaves
      everything that the bundle ships, adapted to the CR as it is now. */
  lemma DeployedHoldsBundle(w: World, env: Env, bundle: seq<Entry>, steps: seq<Event>)
    requires Valid(w, env.home)
    requires DistinctEntries(env.home.ns, bundle) && forall e <- bundle :: WellKinded(e)
    requires var run := Run(w, env, Booted(bundle), bundle, steps, false);
             && run.w.cr.Some? && !run.w.cr.value.deleting && !IsPaused(run.w.cr.value) && run.w.cr.value.spec.deploy
             && run.w.others == 0
             && var out := Pass(run.w, env, run.m, false);
                && Quiet(env, run.w.calls, out.w.calls)
                && out.verdict == Finished && out.w.cr.Some? && out.w.cr.value.status.phase == Deployed
    ensures var run := Run(w, env, Booted(bundle), bundle, steps, false);
            var out := Pass(run.w, env, run.m, false).w;
            AllAnswered(out, env.cfg, out.cr.value, bundle)
  {
    hide Run, Pass, Valid, MemoryOk, DistinctEntries, Quiet, IsPaused, AllAnswered, AllAdapted, WellKinded, Kept;
    CacheIsInvisible(w, env, bundle, steps);
    var run := Run(w, env, Booted(bundle), bundle, steps, false);
    var out := Pass(run.w, env, run.m, false);
    BundleAdapted(env.home.ns, bundle);
    RunAdapts(w, env, Booted(bundle), bundle, steps);
    DeployedAnswers(run.w, env, run.m);
    assert Valid(run.w, env.home) by { MemoryKinds(run.w, env, run.m); }
    PassKept(run.w, env, run.m, false);
    KeptValid(run.w, out.w, env.home);
    CrAtHome(out.w, env.home);
    AdaptedAllAnswered(out.w, env.cfg, out.w.cr.value, bundle, run.m.entries);
  }

  lemma CrAtHome(w: World, home: Name)
    requires Valid(w, home) && w.cr.Some?
    ensures w.cr.value.nn == home
  {
  }

  /** What the first full pass of an operator that is left alone leaves. */
  lemma FirstPassAnswers(w: World, env: Env, m: Memory)
    requires MemoryOk(w, env, m) && Calm(env, w.calls) && Live(w) && env.home.name != ""
    requires w.cr.Some? && Ready(w.cr.value) && w.others == 0
    requires forall e <- m.entries :: Fit(env.cfg, e)
    ensures var out := Pass(w, env, m, false);
            && out.verdict == Finished && out.w.cr.Some? && out.w.cr.value.status.phase == Deployed
            && AllAnswered(out.w, env.cfg, out.w.cr.value, m.entries)
  {
    hide Pass, MemoryOk, Calm, Live, Fit, AllAnswered, Done, WrittenBack, Valid, Kept, WellKinded;
    forall e <- m.entries
      ensures Preparable(env.cfg, w.cr.value, e)
    {
      FitIsPreparable(env.cfg, w.cr.value, e);
    }
    FirstPassConverges(w, env, m);
    var out := Pass(w, env, m, false);
    MemoryKinds(w, env, m);
    PassKept(w, env, m, false);
    KeptValid(w, out.w, env.home);
    assert forall d <- out.m.entries :: Done(out.w, env.cfg, out.w.cr.value, d);
    AllDoneAnswers(out.w, env.home, env.cfg, out.w.cr.value, m.entries, out.m.entries);
  }

  /** The entries that can be prepared: a task is known by name and, but for one, has a step. */
  predicate Fit(cfg: Config, e: Entry) {
    e.rule.TTask? && e.obj.name != "modify-windows-iso-file" ==>
      && e.obj.payload.steps != []
      && (|| e.obj.name == "cleanup-vm" || e.obj.name == "copy-template" || e.obj.name == "modify-data-object"
          || e.obj.name == "create-vm-from-template" || e.obj.name == "disk-virt-customize"
          || e.obj.name == "disk-virt-sysprep" || e.obj.name == "modify-vm-template"
          || e.obj.name == "wait-for-vmi-status" || e.obj.name == "create-vm-from-manifest"
          || e.obj.name == "generate-ssh-keys" || e.obj.name == "execute-in-vm")
  }

  /** And no others: preparing panics exactly for the tasks that are not fit. */
  lemma FitIsPreparable(cfg: Config, c: CR, e: Entry)
    ensures Fit(cfg, e) <==> Preparable(cfg, c, e)
  {
    hide IsoSteps, SubjectsIn, MarkedFor;
  }

  /** An entry that is not fit panics, before any call; no other one does. */
  lemma UnfitPanicsExactly(w: World, env: Env, c: Versions, inst: CR, e: Entry)
    requires inst.nn.name != ""
    ensures var out := ReconcileEntry(w, env, c, inst, e, false);
            && (out.err == Some(Panicked) <==> !Fit(env.cfg, e))
            && (!Fit(env.cfg, e) ==> out.w == w && out.entries == [e])
  {
    hide CreateOrUpdate, Prepared, Remember, Fit, MarkedFor;
    FitIsPreparable(env.cfg, inst, e);
    ExpectedIs(inst, env.cfg, e);
    var p := Prepared(e.rule, env.cfg, inst.nn.ns, inst.spec, e.obj);
    if !Skipped(e, inst.spec) && p.Some? {
      var r := RecipeOf(e.rule, false);
      EngineNeverPanics(w, env, c, r, MarkedFor(inst, r, p.value).obj);
      assert MarkedFor(inst, r, p.value).err != Some(Panicked) by { MarkingNeverPanics(inst, r, p.value); }
    }
  }

  lemma MarkingNeverPanics(inst: CR, r: Recipe, o: Obj)
    ensures MarkedFor(inst, r, o).err != Some(Panicked)
  {
  }

  lemma EngineNeverPanics(w: World, env: Env, c: Versions, r: Recipe, x: Obj)
    ensures CreateOrUpdate(w, env, c, r, x).res != Err(Panicked)
  {
    hide Begin, Mutated, Hit;
  }

  // ---------- what is left alone ----------

  /** The entry that is left out costs no call and reports nothing; every other one reports a result or fails. */
  lemma LeftOutExactly(w: World, env: Env, c: Versions, inst: CR, e: Entry)
    ensures var out := ReconcileEntry(w, env, c, inst, e, false);
            if LeftOut(e, inst.spec) then out == AllOut(w, c, [e], [], None)
            else out.err.Some? || |out.results| == 1
  {
    hide Build, Prepared;
    SkippedIsLeftOut(e, inst.spec);
  }

  /** A service account keeps what others, such as the cluster itself, have put into it, and gets nothing when it
      is created. */
  lemma AccountKeepsPayload(w: World, env: Env, c: Versions, inst: CR, e: Entry)
    requires Valid(w, env.home) && WellKinded(e) && (e.rule.TServiceAccount? || e.rule.PServiceAccount?)
    requires Quiet(env, w.calls, ReconcileEntry(w, env, c, inst, e, false).w.calls)
    ensures var w', k := ReconcileEntry(w, env, c, inst, e, false).w, Where(inst, e);
            && (k in w.objs ==>
                  k in w'.objs && w'.objs[k].payload == w.objs[k].payload && w'.objs[k].uid == w.objs[k].uid)
            && (k !in w.objs && k in w'.objs ==> w'.objs[k].payload == NO_PAYLOAD)
  {
    hide CreateOrUpdate, Prepared, MarkedFor, Remember, Valid, Where;
    var p := Prepared(e.rule, env.cfg, inst.nn.ns, inst.spec, e.obj);
    if !Skipped(e, inst.spec) && p.Some? {
      var r := RecipeOf(e.rule, false);
      var x := MarkedFor(inst, r, p.value).obj;
      PreparedParts(env.cfg, inst, e);
      MarkedParts(inst, e.rule, p.value);
      if MarkedFor(inst, r, p.value).err.None? {
        EngineKeepsPayload(w, env, c, r, x);
      }
    }
  }

  lemma EngineKeepsPayload(w: World, env: Env, c: Versions, r: Recipe, x: Obj)
    requires Valid(w, env.home) && (r.update.KeepPayload? || r.update.CopyMeta?) && !r.immutable
    requires Quiet(env, w.calls, CreateOrUpdate(w, env, c, r, x).w.calls)
    ensures var w', k := CreateOrUpdate(w, env, c, r, x).w, KeyOf(x);
            && (k in w.objs ==>
                  k in w'.objs && w'.objs[k].payload == w.objs[k].payload && w'.objs[k].uid == w.objs[k].uid)
            && (k !in w.objs && k in w'.objs ==> w'.objs[k].payload == NO_PAYLOAD)
  {
    hide Hit, Valid, Begin, GetObj, CreateObj, UpdateObj, Mutated;
    var k, got, out := KeyOf(x), GetObj(w, env, KeyOf(x)), CreateOrUpdate(w, env, c, r, x);
    var found := if got.res.Err? then Blank(x) else got.res.value;
    var next := Mutated(r, env.cfg, x, found, Hit(c, found));
    MutationKeepsPayload(r, env.cfg, x, found, Hit(c, found));
    CallCounts(w, env, x);
    CallCounts(got.w, env, next);
    ReadOnlyKey(w, env, k);
    QuietGet(w, env, k);
    if got.res.Ok? {
      ReadKey(w, env, k);
    }
    if got.res == Err(NotFound) || (got.res.Ok? && next != found) {
      QuietWrites(got.w, env, next);
    }
  }

  lemma CallCounts(w: World, env: Env, o: Obj)
    ensures GetObj(w, env, KeyOf(o)).w.calls == w.calls + 1
    ensures CreateObj(w, env, o).w.calls == UpdateObj(w, env, o).w.calls == w.calls + 1
  {
    assert Begin(w, env).calls == w.calls + 1;
    hide Begin;
  }

  lemma QuietGet(w: World, env: Env, k: Key)
    requires Quiet(env, w.calls, w.calls + 1)
    ensures var r := GetObj(w, env, k);
            && (r.res == Err(NotFound) ==> k !in w.objs || env.turn(w.calls).fault != Served)
            && (r.res.Ok? ==> k in w.objs && r.res.value == w.objs[k].(typed := r.res.value.typed))
  {
    hide Begin;
    QuietBegin(w, env, w.calls + 1);
  }

  lemma QuietWrites(w: World, env: Env, o: Obj)
    requires Quiet(env, w.calls, w.calls + 1)
    ensures var w', k := CreateObj(w, env, o).w, KeyOf(o);
            && (k in w.objs ==> w'.objs == w.objs)
            && (k in w'.objs && k !in w.objs ==> w'.objs[k].payload == o.payload)
    ensures var w', k := UpdateObj(w, env, o).w, KeyOf(o);
            && (k !in w.objs ==> w'.objs == w.objs)
            && (k in w'.objs && k in w.objs && w'.objs[k] != w.objs[k] ==>
                  w'.objs[k].payload == o.payload && w'.objs[k].uid == w.objs[k].uid)
            && (k in w.objs && (w.objs[k].terminating ==> o.finalizers != []) ==> k in w'.objs)
  {
    hide Begin;
    QuietBegin(w, env, w.calls + 1);
  }

  lemma MutationKeepsPayload(r: Recipe, cfg: Config, x: Obj, found: Obj, hit: bool)
    requires r.update.KeepPayload? || r.update.CopyMeta?
    ensures var next := Mutated(r, cfg, x, found, hit);
            && next.payload == found.payload && KeyOf(next) == KeyOf(found) && next.finalizers == found.finalizers
            && (found.terminating ==> next == found)
  {
  }
}

/** The two operands (pkg/tekton-tasks, pkg/tekton-pipelines): which objects they keep, how they adapt
    them to the CR, and in which order they reconcile and clean them up. */
module Operands {
  import opened Kube
  import opened ApiServer
  import opened Labels
  import opened Cache
  import opened Resource

  // ---------- how one list entry is adapted to the CR ----------

  /** One rule for each list of an operand; T belongs to tekton-tasks, P to tekton-pipelines. */
  datatype Rule =
    | TTask | TClusterRole | TServiceAccount | TRoleBinding
    | PClusterRole | PPipeline | PConfigMap | PRoleBinding | PServiceAccount

  datatype Entry = Entry(rule: Rule, obj: Obj)

  predicate OfTasks(rule: Rule) {
    rule.TTask? || rule.TClusterRole? || rule.TServiceAccount? || rule.TRoleBinding?
  }

  function KindOf(rule: Rule): Kind {
    match rule
    case TTask => Task
    case TClusterRole => ClusterRole
    case TServiceAccount => ServiceAccount
    case TRoleBinding => RoleBinding
    case PClusterRole => ClusterRole
    case PPipeline => Pipeline
    case PConfigMap => ConfigMap
    case PRoleBinding => RoleBinding
    case PServiceAccount => ServiceAccount
  }

  function UpdateOf(rule: Rule): UpdateFunc {
    match rule
    case TServiceAccount => KeepPayload
    case PPipeline => CopyPipeline
    case PServiceAccount => CopyMeta
    case PClusterRole => CopyMetaAndPayload
    case _ => CopyPayload
  }

  function RecipeOf(rule: Rule, always: bool): Recipe {
    if OfTasks(rule) then Recipe(true, true, "tekton-tasks", "tektonTasks", UpdateOf(rule), false, always)
    else Recipe(true, true, "tekton-pipelines", "tektonPipelines", UpdateOf(rule), false, always)
  }

  const TASKS_VERSION_LABEL := "tekton-tasks.kubevirt.io/version"
  const TASKS_VERSION := "v0.14.0"
  const MODIFY_ISO := "modify-windows-iso-file"

  /** The images of the allowed tasks. */
  function AllowedImage(cfg: Config, name: string): Option<string> {
    if name == "create-vm-from-manifest" || name == "create-vm-from-template" then Some(cfg.createVm)
    else if name == "cleanup-vm" || name == "execute-in-vm" || name == MODIFY_ISO then Some(cfg.cleanupVm)
    else if name == "copy-template" then Some(cfg.copyTemplate)
    else if name == "modify-data-object" then Some(cfg.modifyDataObject)
    else if name == "disk-virt-customize" then Some(cfg.diskVirtCustomize)
    else if name == "disk-virt-sysprep" then Some(cfg.diskVirtSysprep)
    else if name == "modify-vm-template" then Some(cfg.modifyVmTemplate)
    else if name == "wait-for-vmi-status" then Some(cfg.waitForVmi)
    else if name == "generate-ssh-keys" then Some(cfg.sshKeys)
    else None
  }

  function IsoStep(cfg: Config, step: Step): Step {
    if step.name == "create-iso-file" then step.(image := cfg.modifyDataObject)
    else if step.name == "convert-iso-file" || step.name == "modify-iso-file"
    then step.(image := cfg.diskVirtCustomize)
    else step
  }

  function IsoSteps(cfg: Config, steps: seq<Step>): seq<Step> {
    if steps == [] then [] else [IsoStep(cfg, steps[0])] + IsoSteps(cfg, steps[1..])
  }

  lemma {:induction false} IsoStepsEach(cfg: Config, steps: seq<Step>)
    ensures var filled := IsoSteps(cfg, steps);
            |filled| == |steps| && forall i | 0 <= i < |steps| :: filled[i] == IsoStep(cfg, steps[i])
  {
    if steps != [] {
      IsoStepsEach(cfg, steps[1..]);
    }
  }

  /** The steps that unpack an image get the one image, those that rebuild it the other; all else stays. */
  lemma IsoStepsAt(cfg: Config, steps: seq<Step>, i: nat)
    requires i < |steps|
    ensures var filled := IsoSteps(cfg, steps);
            && |filled| == |steps| && filled[i].name == steps[i].name
            && (steps[i].name == "create-iso-file" ==> filled[i].image == cfg.modifyDataObject)
            && (steps[i].name in {"convert-iso-file", "modify-iso-file"} ==> filled[i].image == cfg.diskVirtCustomize)
            && (steps[i].name !in {"create-iso-file", "convert-iso-file", "modify-iso-file"} ==> filled[i] == steps[i])
  {
    IsoStepsEach(cfg, steps);
  }

  /** The steps of a task with their images, or None where the Go code panics: no first step, or no
      image known for the name. */
  function TaskSteps(cfg: Config, name: string, steps: seq<Step>): Option<seq<Step>> {
    if name == MODIFY_ISO then Some(IsoSteps(cfg, steps))
    else if steps == [] || AllowedImage(cfg, name).None? then None
    else Some(steps[0 := steps[0].(image := AllowedImage(cfg, name).value)])
  }

  /** The namespace a list entry gets; role bindings and service accounts of the pipelines operand keep
      the first one they were given. */
  function TargetNs(rule: Rule, ns: string, spec: Spec, prev: string): string {
    match rule
    case TTask => if spec.tasksNs.Some? && spec.tasksNs.value != "" then spec.tasksNs.value else ns
    case TServiceAccount => ns
    case TRoleBinding => ns
    case PPipeline => spec.pipelinesNs
    case PConfigMap => spec.pipelinesNs
    case PRoleBinding => if prev == "" then ns else prev
    case PServiceAccount => if prev == "" then ns else prev
    case TClusterRole => prev
    case PClusterRole => prev
  }

  function SubjectsIn(ns: string, subjects: seq<Subject>): seq<Subject> {
    if subjects == [] then [] else [subjects[0].(ns := ns)] + SubjectsIn(ns, subjects[1..])
  }

  /** Every subject keeps its name and moves to the namespace. */
  lemma {:induction false} SubjectsEach(ns: string, subjects: seq<Subject>)
    ensures var filled := SubjectsIn(ns, subjects);
            |filled| == |subjects| && forall i | 0 <= i < |subjects| :: filled[i] == Subject(subjects[i].name, ns)
  {
    if subjects != [] {
      SubjectsEach(ns, subjects[1..]);
    }
  }

  /** A list entry adapted to the CR (its namespace and spec), as the reconcile functions do it in place. */
  function Prepared(rule: Rule, cfg: Config, ns: string, spec: Spec, o: Obj): Option<Obj> {
    var o1 := o.(ns := TargetNs(rule, ns, spec, o.ns));
    match rule
    case TTask =>
      var steps := TaskSteps(cfg, o.name, o.payload.steps);
      if steps.None? then None
      else Some(o1.(payload := o1.payload.(steps := steps.value),
                    labels := o1.labels[TASKS_VERSION_LABEL := TASKS_VERSION]))
    case PRoleBinding =>
      Some(o1.(payload := o1.payload.(subjects := SubjectsIn(ns, o1.payload.subjects))))
    case _ => Some(o1)
  }

  /** The namespaces in which the "pipeline" service account is deployed. */
  predicate SystemNamespace(ns: string) {
    "openshift-" <= ns || "kube-" <= ns
  }

  predicate Skipped(e: Entry, spec: Spec) {
    e.rule.PServiceAccount? && !SystemNamespace(spec.pipelinesNs) && e.obj.name == "pipeline"
  }

  // ---------- reconciling lists ----------

  datatype AllOut = AllOut(w: World, versions: Versions, entries: seq<Entry>,
                           results: seq<ReconcileResult>, err: Option<Error>)

  function ReconcileEntry(w: World, env: Env, c: Versions, inst: CR, e: Entry, always: bool): (out: AllOut)
    ensures |out.entries| == 1
  {
    if Skipped(e, inst.spec) then AllOut(w, c, [e], [], None)
    else
      var p := Prepared(e.rule, env.cfg, inst.nn.ns, inst.spec, e.obj);
      if p.None? then AllOut(w, c, [e], [], Some(Panicked))
      else
        var b := Build(w, env, c, inst, RecipeOf(e.rule, always), p.value);
        if b.res.Err? then AllOut(b.w, b.versions, [Entry(e.rule, b.obj)], [], Some(b.res.error))
        else AllOut(b.w, b.versions, [Entry(e.rule, b.obj)], [b.res.value], None)
  }

  /** Puts what was done before in front of what comes after; an error drops all results. */
  function Joined(entries: seq<Entry>, results: seq<ReconcileResult>, out: AllOut): AllOut {
    out.(entries := entries + out.entries, results := if out.err.Some? then [] else results + out.results)
  }

  /** Reconciles the entries in order and stops at the first error. */
  function ReconcileAll(w: World, env: Env, c: Versions, inst: CR, es: seq<Entry>, always: bool): (out: AllOut)
    ensures |out.entries| == |es|
    ensures out.err.Some? ==> out.results == []
    decreases |es|
  {
    if es == [] then AllOut(w, c, [], [], None)
    else
      var first := ReconcileEntry(w, env, c, inst, es[0], always);
      if first.err.Some? then Joined(first.entries, [], first.(entries := es[1..]))
      else Joined(first.entries, first.results, ReconcileAll(first.w, env, first.versions, inst, es[1..], always))
  }

  lemma JoinedTwice(e1: seq<Entry>, r1: seq<ReconcileResult>, e2: seq<Entry>, r2: seq<ReconcileResult>, out: AllOut)
    ensures Joined(e1, r1, Joined(e2, r2, out)) == Joined(e1 + e2, r1 + r2, out)
  {
    assert e1 + (e2 + out.entries) == (e1 + e2) + out.entries;
    assert r1 + (r2 + out.results) == (r1 + r2) + out.results;
  }

  lemma ReconcileStep(w: World, env: Env, c: Versions, inst: CR, e: Entry, rest: seq<Entry>, always: bool)
    ensures var step := ReconcileEntry(w, env, c, inst, e, always);
            ReconcileAll(w, env, c, inst, [e] + rest, always)
            == if step.err.Some? then AllOut(step.w, step.versions, step.entries + rest, [], step.err)
               else Joined(step.entries, step.results, ReconcileAll(step.w, env, step.versions, inst, rest, always))
  {
    hide ReconcileEntry;
    assert ([e] + rest)[1..] == rest;
  }

  lemma JoinedError(entries: seq<Entry>, results: seq<ReconcileResult>, out: AllOut, more: seq<Entry>)
    requires out.err.Some?
    ensures Joined(entries, results, out.(entries := out.entries + more))
         == Joined(entries, results, out).(entries := Joined(entries, results, out).entries + more)
  {
    assert entries + (out.entries + more) == (entries + out.entries) + more;
  }

  /** Reconciling one list after the other is reconciling the concatenated list. */
  lemma {:induction false} ReconcileAppend(w: World, env: Env, c: Versions, inst: CR, a: seq<Entry>, b: seq<Entry>,
                                           always: bool)
    ensures var first := ReconcileAll(w, env, c, inst, a, always);
            ReconcileAll(w, env, c, inst, a + b, always)
            == if first.err.Some? then first.(entries := first.entries + b)
               else Joined(first.entries, first.results,
                           ReconcileAll(first.w, env, first.versions, inst, b, always))
    decreases |a|
  {
    hide ReconcileEntry;
    if a == [] {
      var whole := ReconcileAll(w, env, c, inst, b, always);
      assert a + b == b;
      assert [] + whole.entries == whole.entries && [] + whole.results == whole.results;
    } else {
      AppendStep(w, env, c, inst, a, b, always);
    }
  }

  lemma {:induction false} AppendStep(w: World, env: Env, c: Versions, inst: CR, a: seq<Entry>, b: seq<Entry>,
                                      always: bool)
    requires a != []
    ensures var first := ReconcileAll(w, env, c, inst, a, always);
            ReconcileAll(w, env, c, inst, a + b, always)
            == if first.err.Some? then first.(entries := first.entries + b)
               else Joined(first.entries, first.results,
                           ReconcileAll(first.w, env, first.versions, inst, b, always))
    decreases |a|, 0
  {
    hide ReconcileEntry, ReconcileAll;
    var step := ReconcileEntry(w, env, c, inst, a[0], always);
    assert a == [a[0]] + a[1..] && a + b == [a[0]] + (a[1..] + b);
    ReconcileStep(w, env, c, inst, a[0], a[1..], always);
    ReconcileStep(w, env, c, inst, a[0], a[1..] + b, always);
    if step.err.Some? {
      assert step.entries + (a[1..] + b) == (step.entries + a[1..]) + b;
    } else {
      ReconcileAppend(step.w, env, step.versions, inst, a[1..], b, always);
      var mid := ReconcileAll(step.w, env, step.versions, inst, a[1..], always);
      if mid.err.Some? {
        JoinedError(step.entries, step.results, mid, b);
      } else {
        JoinedTwice(step.entries, step.results, mid.entries, mid.results,
                    ReconcileAll(mid.w, env, mid.versions, inst, b, always));
      }
    }
  }

  function Tag(rule: Rule, list: seq<Obj>): (es: seq<Entry>)
    ensures |es| == |list|
  {
    if list == [] then [] else [Entry(rule, list[0])] + Tag(rule, list[1..])
  }

  // ---------- cleaning up ----------

  function Select(es: seq<Entry>, rule: Rule): seq<Obj> {
    if es == [] then []
    else if es[0].rule == rule then [es[0].obj] + Select(es[1..], rule)
    else Select(es[1..], rule)
  }

  /** The list entries that the tasks operand cleans up, in its order. */
  function TasksListed(es: seq<Entry>): seq<Obj> {
    Select(es, TTask) + Select(es, TClusterRole) + Select(es, TRoleBinding) + Select(es, TServiceAccount)
  }

  /** The list entries that the pipelines operand cleans up, in its order. */
  function PipelinesListed(es: seq<Entry>): seq<Obj> {
    Select(es, PPipeline) + Select(es, PConfigMap) + Select(es, PRoleBinding) + Select(es, PServiceAccount)
    + Select(es, PClusterRole)
  }

  /** Cleans up everything the tasks operand has in its lists, and the ClusterTasks of earlier releases. */
  function TasksCleaned(w: World, env: Env, inst: CR, es: seq<Entry>): CleanAllOut {
    var deprecated := ListObjs(w, env, ClusterTask, MANAGED_BY_LABEL, MANAGED_BY_VALUE);
    if deprecated.res.Err? then CleanAllOut(deprecated.w, Err(deprecated.res.error))
    else CleanedAll(deprecated.w, env, inst, TasksListed(es) + deprecated.res.value)
  }

  function PipelinesCleaned(w: World, env: Env, inst: CR, es: seq<Entry>): CleanAllOut {
    CleanedAll(w, env, inst, PipelinesListed(es))
  }

  lemma {:induction false} SelectAppend(a: seq<Entry>, b: seq<Entry>, rule: Rule)
    ensures Select(a + b, rule) == Select(a, rule) + Select(b, rule)
  {
    if a == [] {
      assert a + b == b;
    } else {
      assert (a + b)[1..] == a[1..] + b;
      SelectAppend(a[1..], b, rule);
    }
  }

  lemma {:induction false} SelectTag(rule: Rule, list: seq<Obj>, wanted: Rule)
    ensures Select(Tag(rule, list), wanted) == if rule == wanted then list else []
  {
    if list != [] {
      SelectTag(rule, list[1..], wanted);
    }
  }

  /** The order in which the operands clean up their lists. */
  lemma CleanupOrder(tasks: seq<Obj>, roles: seq<Obj>, accounts: seq<Obj>, bindings: seq<Obj>)
    ensures TasksListed(Tag(TTask, tasks) + Tag(TClusterRole, roles) + Tag(TServiceAccount, accounts)
                        + Tag(TRoleBinding, bindings))
         == tasks + roles + bindings + accounts
  {
    hide Select, Tag;
    forall rule: Rule
      ensures Select(Tag(TTask, tasks) + Tag(TClusterRole, roles) + Tag(TServiceAccount, accounts)
                     + Tag(TRoleBinding, bindings), rule)
           == match rule
              case TTask => tasks
              case TClusterRole => roles
              case TServiceAccount => accounts
              case TRoleBinding => bindings
              case _ => []
    {
      SelectTag(TTask, tasks, rule);
      SelectTag(TClusterRole, roles, rule);
      SelectTag(TServiceAccount, accounts, rule);
      SelectTag(TRoleBinding, bindings, rule);
      SelectAppend(Tag(TTask, tasks), Tag(TClusterRole, roles), rule);
      SelectAppend(Tag(TTask, tasks) + Tag(TClusterRole, roles), Tag(TServiceAccount, accounts), rule);
      SelectAppend(Tag(TTask, tasks) + Tag(TClusterRole, roles) + Tag(TServiceAccount, accounts),
                   Tag(TRoleBinding, bindings), rule);
    }
  }

  /** The same for the pipelines operand. */
  lemma PipelinesCleanupOrder(roles: seq<Obj>, pipelines: seq<Obj>, maps: seq<Obj>, bindings: seq<Obj>,
                              accounts: seq<Obj>)
    ensures PipelinesListed(Tag(PClusterRole, roles) + Tag(PPipeline, pipelines) + Tag(PConfigMap, maps)
                            + Tag(PRoleBinding, bindings) + Tag(PServiceAccount, accounts))
         == pipelines + maps + bindings + accounts + roles
  {
    hide Select, Tag;
    forall rule: Rule
      ensures Select(Tag(PClusterRole, roles) + Tag(PPipeline, pipelines) + Tag(PConfigMap, maps)
                     + Tag(PRoleBinding, bindings) + Tag(PServiceAccount, accounts), rule)
           == match rule
              case PClusterRole => roles
              case PPipeline => pipelines
              case PConfigMap => maps
              case PRoleBinding => bindings
              case PServiceAccount => accounts
              case _ => []
    {
      SelectTag(PClusterRole, roles, rule);
      SelectTag(PPipeline, pipelines, rule);
      SelectTag(PConfigMap, maps, rule);
      SelectTag(PRoleBinding, bindings, rule);
      SelectTag(PServiceAccount, accounts, rule);
      SelectAppend(Tag(PClusterRole, roles), Tag(PPipeline, pipelines), rule);
      SelectAppend(Tag(PClusterRole, roles) + Tag(PPipeline, pipelines), Tag(PConfigMap, maps), rule);
      SelectAppend(Tag(PClusterRole, roles) + Tag(PPipeline, pipelines) + Tag(PConfigMap, maps),
                   Tag(PRoleBinding, bindings), rule);
      SelectAppend(Tag(PClusterRole, roles) + Tag(PPipeline, pipelines) + Tag(PConfigMap, maps)
                   + Tag(PRoleBinding, bindings), Tag(PServiceAccount, accounts), rule);
    }
  }

  // ---------- the operands as the source runs them ----------

  method AssignIsoImages(cfg: Config, steps: seq<Step>) returns (filled: seq<Step>)
    ensures filled == IsoSteps(cfg, steps)
  {
    filled := steps;
    for i := 0 to |steps|
      invariant |filled| == |steps|
      invariant forall k | 0 <= k < i :: filled[k] == IsoStep(cfg, steps[k])
      invariant forall k | i <= k < |steps| :: filled[k] == steps[k]
    {
      if steps[i].name == "create-iso-file" {
        filled := filled[i := steps[i].(image := cfg.modifyDataObject)];
      }
      if steps[i].name == "convert-iso-file" || steps[i].name == "modify-iso-file" {
        filled := filled[i := steps[i].(image := cfg.diskVirtCustomize)];
      }
    }
    IsoStepsEach(cfg, steps);
  }

  method AssignSubjects(ns: string, subjects: seq<Subject>) returns (filled: seq<Subject>)
    ensures filled == SubjectsIn(ns, subjects)
  {
    filled := subjects;
    for i := 0 to |subjects|
      invariant |filled| == |subjects|
      invariant forall k | 0 <= k < i :: filled[k] == Subject(subjects[k].name, ns)
      invariant forall k | i <= k < |subjects| :: filled[k] == subjects[k]
    {
      filled := filled[i := filled[i].(ns := ns)];
    }
    SubjectsEach(ns, subjects);
  }

  /** The first half of a reconcile function: the list entry is adapted to the CR in place. */
  method Prepare(rule: Rule, cfg: Config, inst: CR, o: Obj) returns (prepared: Option<Obj>)
    ensures prepared == Prepared(rule, cfg, inst.nn.ns, inst.spec, o)
  {
    var p := o;
    match rule {
      case TTask =>
        p := p.(ns := inst.nn.ns);
        if inst.spec.tasksNs.Some? && inst.spec.tasksNs.value != "" {
          p := p.(ns := inst.spec.tasksNs.value);
        }
        if p.name == MODIFY_ISO {
          var steps := AssignIsoImages(cfg, p.payload.steps);
          p := p.(payload := p.payload.(steps := steps));
        } else {
          var image := AllowedImage(cfg, p.name);
          if p.payload.steps == [] || image.None? {
            return None;
          }
          p := p.(payload := p.payload.(steps := p.payload.steps[0 := p.payload.steps[0].(image := image.value)]));
        }
        p := p.(labels := p.labels[TASKS_VERSION_LABEL := TASKS_VERSION]);
      case TServiceAccount =>
        p := p.(ns := inst.nn.ns);
      case TRoleBinding =>
        p := p.(ns := inst.nn.ns);
      case PPipeline =>
        p := p.(ns := inst.spec.pipelinesNs);
      case PConfigMap =>
        p := p.(ns := inst.spec.pipelinesNs);
      case PServiceAccount =>
        if p.ns == "" {
          p := p.(ns := inst.nn.ns);
        }
      case PRoleBinding =>
        if p.ns == "" {
          p := p.(ns := inst.nn.ns);
        }
        var subjects := AssignSubjects(inst.nn.ns, p.payload.subjects);
        p := p.(payload := p.payload.(subjects := subjects));
      case TClusterRole =>
      case PClusterRole =>
    }
    return Some(p);
  }

  /** The reconcile function of one list entry: adapts the entry in place and runs the engine on it. */
  method ReconcileObject(cluster: Cluster, cache: VersionCache, inst: CR, rule: Rule, o: Obj)
    returns (updated: Obj, res: Result<ReconcileResult>)
    requires !Skipped(Entry(rule, o), inst.spec)
    modifies cluster, cache
    ensures AllOut(cluster.world, cache.versions, [Entry(rule, updated)], if res.Ok? then [res.value] else [],
                   if res.Ok? then None else Some(res.error))
         == ReconcileEntry(old(cluster.world), cluster.env, old(cache.versions), inst, Entry(rule, o), false)
  {
    hide Build, Prepared, Skipped, RecipeOf;
    var p := Prepare(rule, cluster.env.cfg, inst, o);
    if p.None? {
      return o, Err(Panicked);
    }
    var builder := new ReconcileBuilder(cluster, cache, inst, RecipeOf(rule, false), p.value);
    res := builder.Reconcile();
    updated := builder.resource;
  }

  /** Runs the reconcile functions of one list, writing each adapted entry back into it. */
  method ReconcileList(cluster: Cluster, cache: VersionCache, inst: CR, rule: Rule, list: seq<Obj>)
    returns (updated: seq<Obj>, results: seq<ReconcileResult>, err: Option<Error>)
    modifies cluster, cache
    ensures AllOut(cluster.world, cache.versions, Tag(rule, updated), results, err)
         == ReconcileAll(old(cluster.world), cluster.env, old(cache.versions), inst, Tag(rule, list), false)
    ensures |updated| == |list|
  {
    hide ReconcileEntry, Skipped, ReconcileAll, Joined, Tag;
    updated, results := list, [];
    ghost var env := cluster.env;
    ghost var whole := ReconcileAll(cluster.world, env, cache.versions, inst, Tag(rule, list), false);
    ghost var done: seq<Entry> := [];
    assert list[0..] == list;
    JoinedNothing(whole);
    for i := 0 to |list|
      invariant |updated| == |list|
      invariant |done| == i && done + Tag(rule, list[i..]) == Tag(rule, updated)
      invariant Joined(done, results, ReconcileAll(cluster.world, env, cache.versions, inst, Tag(rule, list[i..]),
          false))
             == whole
    {
      var e := Entry(rule, list[i]);
      ghost var rest := Tag(rule, list[i + 1..]);
      TagSplit(rule, list, i);
      JoinedStep(done, results, cluster.world, env, cache.versions, inst, e, rest);
      if Skipped(e, inst.spec) {
        SkippedStep(cluster.world, env, cache.versions, inst, e);
        assert results + [] == results;
        assert done + ([e] + rest) == (done + [e]) + rest;
        done := done + [e];
      } else {
        var o, res := ReconcileObject(cluster, cache, inst, rule, list[i]);
        TagReplaced(rule, updated, done, e, rest, o);
        updated := updated[i := o];
        done := done + [Entry(rule, o)];
        if res.Err? {
          return updated, [], Some(res.error);
        }
        results := results + [res.value];
      }
    }
    err := None;
    assert list[|list|..] == [];
    FinishedList(done, results, cluster.world, env, cache.versions, inst, rule);
  }

  /** One step of the loop: the outcome of the whole loop, seen from after the step. */
  lemma JoinedStep(done: seq<Entry>, results: seq<ReconcileResult>, w: World, env: Env, c: Versions, inst: CR, e: Entry,
                   rest: seq<Entry>)
    ensures var step := ReconcileEntry(w, env, c, inst, e, false);
            Joined(done, results, ReconcileAll(w, env, c, inst, [e] + rest, false))
            == if step.err.Some? then AllOut(step.w, step.versions, done + step.entries + rest, [], step.err)
               else Joined(done + step.entries, results + step.results,
                           ReconcileAll(step.w, env, step.versions, inst, rest, false))
  {
    hide ReconcileEntry, ReconcileAll;
    var step := ReconcileEntry(w, env, c, inst, e, false);
    ReconcileStep(w, env, c, inst, e, rest, false);
    if step.err.Some? {
      JoinedTwice(done, results, step.entries, [], step.(entries := rest));
    } else {
      JoinedTwice(done, results, step.entries, step.results,
                  ReconcileAll(step.w, env, step.versions, inst, rest, false));
    }
  }

  lemma FinishedList(done: seq<Entry>, results: seq<ReconcileResult>, w: World, env: Env, c: Versions, inst: CR,
                     rule: Rule)
    ensures Joined(done, results, ReconcileAll(w, env, c, inst, Tag(rule, []), false)) == AllOut(w, c, done,
        results, None)
    ensures done + Tag(rule, []) == done
  {
    assert done + [] == done && results + [] == results;
  }

  lemma TagSplit(rule: Rule, list: seq<Obj>, i: nat)
    requires i < |list|
    ensures Tag(rule, list[i..]) == [Entry(rule, list[i])] + Tag(rule, list[i + 1..])
  {
    assert list[i..][1..] == list[i + 1..];
  }

  lemma TagReplaced(rule: Rule, list: seq<Obj>, done: seq<Entry>, e: Entry, rest: seq<Entry>, o: Obj)
    requires done + ([e] + rest) == Tag(rule, list)
    ensures |done| < |list| && Tag(rule, list[|done| := o]) == done + [Entry(rule, o)] + rest
  {
    TagEach(rule, list);
    TagEach(rule, list[|done| := o]);
    hide Tag;
    var all := done + ([e] + rest);
    forall k | 0 <= k < |list|
      ensures Tag(rule, list[|done| := o])[k] == (done + [Entry(rule, o)] + rest)[k]
    {
      assert all[k] == Entry(rule, list[k]);
    }
  }

  lemma SkippedStep(w: World, env: Env, c: Versions, inst: CR, e: Entry)
    requires Skipped(e, inst.spec)
    ensures ReconcileEntry(w, env, c, inst, e, false) == AllOut(w, c, [e], [], None)
  {
    hide Skipped;
  }

  lemma JoinedNothing(out: AllOut)
    requires out.err.Some? ==> out.results == []
    ensures Joined([], [], out) == out
  {
    assert [] + out.entries == out.entries && [] + out.results == out.results;
  }

  lemma {:induction false} TagEach(rule: Rule, list: seq<Obj>)
    ensures |Tag(rule, list)| == |list| && forall i | 0 <= i < |list| :: Tag(rule, list)[i] == Entry(rule, list[i])
  {
    if list != [] {
      TagEach(rule, list[1..]);
    }
  }

  // ---------- the tasks operand ----------

  function TrimSuffix(s: string, suffix: string): string {
    if |suffix| <= |s| && s[|s| - |suffix|..] == suffix then s[..|s| - |suffix|] else s
  }

  /** The tasks are known by their own name, everything else by the name of the task it serves. */
  predicate Used(cfg: Config, rule: Rule, o: Obj) {
    AllowedImage(cfg, if rule == TTask then o.name else TrimSuffix(o.name, "-task")).Some?
  }

  function Filtered(cfg: Config, rule: Rule, list: seq<Obj>): (kept: seq<Obj>)
    ensures forall o :: o in kept <==> o in list && Used(cfg, rule, o)
  {
    if list == [] then []
    else if Used(cfg, rule, list[0]) then [list[0]] + Filtered(cfg, rule, list[1..])
    else Filtered(cfg, rule, list[1..])
  }

  /** The tasks that the operator knows. */
  const TASK_NAMES: set<string> := {
    "cleanup-vm", "copy-template", "modify-data-object", "create-vm-from-template", "disk-virt-customize",
    "disk-virt-sysprep", "modify-vm-template", "wait-for-vmi-status", "create-vm-from-manifest",
    "generate-ssh-keys", "execute-in-vm", "modify-windows-iso-file"}

  /** A task is kept for its name; everything else for the name of a task, with or without "-task" after it. */
  ghost predicate NameCounts(rule: Rule, name: string) {
    || name in TASK_NAMES
    || (!rule.TTask? && exists task <- TASK_NAMES :: name == task + "-task")
  }

  lemma AllowedExactly(cfg: Config, name: string)
    ensures AllowedImage(cfg, name).Some? <==> name in TASK_NAMES
  {
  }

  /** No name of a task ends like this itself. */
  lemma NoTaskSuffix(name: string)
    requires name in TASK_NAMES
    ensures |name| > 0 && name[|name| - 1] != 'k'
  {
  }

  lemma UsedExactly(cfg: Config, rule: Rule, o: Obj)
    ensures Used(cfg, rule, o) <==> NameCounts(rule, o.name)
  {
    hide AllowedImage;
    var suffix, trimmed := "-task", TrimSuffix(o.name, "-task");
    assert suffix[|suffix| - 1] == 'k';
    AllowedExactly(cfg, o.name);
    AllowedExactly(cfg, trimmed);
    if trimmed != o.name {
      assert o.name == trimmed + suffix;
      if o.name in TASK_NAMES {
        NoTaskSuffix(o.name);
      }
    }
    forall task | o.name == task + suffix
      ensures trimmed == task
    {
      assert o.name[|o.name| - |suffix|..] == suffix && o.name[..|o.name| - |suffix|] == task;
    }
  }

  /** Filtering keeps every object whose name counts as often as it was there, and drops all others. */
  lemma {:induction false} FilteredCount(cfg: Config, rule: Rule, list: seq<Obj>, o: Obj)
    ensures multiset(Filtered(cfg, rule, list))[o] == if NameCounts(rule, o.name) then multiset(list)[o] else 0
  {
    hide Used, NameCounts;
    UsedExactly(cfg, rule, o);
    if list != [] {
      FilteredCount(cfg, rule, list[1..], o);
      UsedExactly(cfg, rule, list[0]);
      assert list == [list[0]] + list[1..];
    }
  }

  /** What is kept keeps its order: of two lists one after the other, what is kept of the first comes first. */
  lemma {:induction false} FilteredInOrder(cfg: Config, rule: Rule, a: seq<Obj>, b: seq<Obj>)
    ensures Filtered(cfg, rule, a + b) == Filtered(cfg, rule, a) + Filtered(cfg, rule, b)
  {
    hide Used;
    if a == [] {
      assert a + b == b;
    } else {
      assert (a + b)[1..] == a[1..] + b;
      FilteredInOrder(cfg, rule, a[1..], b);
    }
  }

  method FilterUnused(cfg: Config, rule: Rule, list: seq<Obj>) returns (kept: seq<Obj>)
    ensures kept == Filtered(cfg, rule, list)
  {
    hide Used;
    kept := [];
    for i := 0 to |list|
      invariant kept + Filtered(cfg, rule, list[i..]) == Filtered(cfg, rule, list)
    {
      assert list[i..][1..] == list[i + 1..];
      if Used(cfg, rule, list[i]) {
        assert (kept + [list[i]]) + Filtered(cfg, rule, list[i + 1..])
            == kept + ([list[i]] + Filtered(cfg, rule, list[i + 1..]));
        kept := kept + [list[i]];
      }
    }
  }

  class TektonTasks {
    var tasks: seq<Obj>
    var serviceAccounts: seq<Obj>
    var roleBindings: seq<Obj>
    var clusterRoles: seq<Obj>

    /** The lists in the order in which they are reconciled. */
    ghost function Entries(): seq<Entry>
      reads this
    {
      Tag(TTask, tasks) + Tag(TClusterRole, clusterRoles)
      + Tag(TServiceAccount, serviceAccounts) + Tag(TRoleBinding, roleBindings)
    }

    constructor (cfg: Config, tasks: seq<Obj>, serviceAccounts: seq<Obj>, roleBindings: seq<Obj>,
                 clusterRoles: seq<Obj>)
      ensures this.tasks == Filtered(cfg, TTask, tasks)
      ensures this.serviceAccounts == Filtered(cfg, TServiceAccount, serviceAccounts)
      ensures this.roleBindings == Filtered(cfg, TRoleBinding, roleBindings)
      ensures this.clusterRoles == Filtered(cfg, TClusterRole, clusterRoles)
    {
      this.tasks, this.serviceAccounts := tasks, serviceAccounts;
      this.roleBindings, this.clusterRoles := roleBindings, clusterRoles;
      new;
      FilterUnusedObjects(cfg);
    }

    method FilterUnusedObjects(cfg: Config)
      modifies this
      ensures tasks == Filtered(cfg, TTask, old(tasks))
      ensures serviceAccounts == Filtered(cfg, TServiceAccount, old(serviceAccounts))
      ensures roleBindings == Filtered(cfg, TRoleBinding, old(roleBindings))
      ensures clusterRoles == Filtered(cfg, TClusterRole, old(clusterRoles))
    {
      tasks := FilterUnused(cfg, TTask, tasks);
      serviceAccounts := FilterUnused(cfg, TServiceAccount, serviceAccounts);
      roleBindings := FilterUnused(cfg, TRoleBinding, roleBindings);
      clusterRoles := FilterUnused(cfg, TClusterRole, clusterRoles);
    }

    method Reconcile(cluster: Cluster, cache: VersionCache, inst: CR)
      returns (results: seq<ReconcileResult>, err: Option<Error>)
      modifies this, cluster, cache
      ensures AllOut(cluster.world, cache.versions, Entries(), results, err)
           == ReconcileAll(old(cluster.world), cluster.env, old(cache.versions), inst, old(Entries()), false)
    {
      hide ReconcileAll, ReconcileEntry;
      ghost var w, env, c := cluster.world, cluster.env, cache.versions;
      ghost var a, b := Tag(TTask, tasks), Tag(TClusterRole, clusterRoles);
      ghost var s, r := Tag(TServiceAccount, serviceAccounts), Tag(TRoleBinding, roleBindings);
      ReconcileAppend(w, env, c, inst, a, b, false);
      ReconcileAppend(w, env, c, inst, a + b, s, false);
      ReconcileAppend(w, env, c, inst, a + b + s, r, false);
      var more: seq<ReconcileResult>;
      tasks, results, err := ReconcileList(cluster, cache, inst, TTask, tasks);
      if err.Some? {
        return [], err;
      }
      clusterRoles, more, err := ReconcileList(cluster, cache, inst, TClusterRole, clusterRoles);
      if err.Some? {
        return [], err;
      }
      results := results + more;
      serviceAccounts, more, err := ReconcileList(cluster, cache, inst, TServiceAccount, serviceAccounts);
      if err.Some? {
        return [], err;
      }
      results := results + more;
      roleBindings, more, err := ReconcileList(cluster, cache, inst, TRoleBinding, roleBindings);
      if err.Some? {
        return [], err;
      }
      results := results + more;
    }

    method Cleanup(cluster: Cluster, inst: CR) returns (res: Result<seq<CleanupResult>>)
      modifies cluster
      ensures CleanAllOut(cluster.world, res) == TasksCleaned(old(cluster.world), cluster.env, inst, Entries())
    {
      hide TasksListed, PipelinesListed, Entries;
      var objects: seq<Obj> := [];
      objects := objects + tasks;
      objects := objects + clusterRoles;
      objects := objects + roleBindings;
      objects := objects + serviceAccounts;
      var clusterTasks := cluster.List(ClusterTask, MANAGED_BY_LABEL, MANAGED_BY_VALUE);
      if clusterTasks.Err? {
        return Err(clusterTasks.error);
      }
      EntriesListed();
      assert objects == TasksListed(Entries());
      objects := objects + clusterTasks.value;
      res := DeleteAll(cluster, inst, objects);
    }

    lemma EntriesListed()
      ensures TasksListed(Entries()) == tasks + clusterRoles + roleBindings + serviceAccounts
      ensures PipelinesListed(Entries()) == []
    {
      SelectFour(TTask);
      SelectFour(TClusterRole);
      SelectFour(TServiceAccount);
      SelectFour(TRoleBinding);
      SelectFour(PPipeline);
      SelectFour(PConfigMap);
      SelectFour(PRoleBinding);
      SelectFour(PServiceAccount);
      SelectFour(PClusterRole);
    }

    lemma SelectFour(rule: Rule)
      ensures Select(Entries(), rule)
           == match rule
              case TTask => tasks
              case TClusterRole => clusterRoles
              case TServiceAccount => serviceAccounts
              case TRoleBinding => roleBindings
              case _ => []
    {
      hide Select, Tag;
      var a, b := Tag(TTask, tasks), Tag(TClusterRole, clusterRoles);
      var s, r := Tag(TServiceAccount, serviceAccounts), Tag(TRoleBinding, roleBindings);
      SelectAppend(a, b, rule);
      SelectAppend(a + b, s, rule);
      SelectAppend(a + b + s, r, rule);
      SelectTag(TTask, tasks, rule);
      SelectTag(TClusterRole, clusterRoles, rule);
      SelectTag(TServiceAccount, serviceAccounts, rule);
      SelectTag(TRoleBinding, roleBindings, rule);
    }
  }

  // ---------- the pipelines operand ----------

  class TektonPipelines {
    var pipelines: seq<Obj>
    var configMaps: seq<Obj>
    var roleBindings: seq<Obj>
    var serviceAccounts: seq<Obj>
    var clusterRoles: seq<Obj>

    /** The lists in the order in which they are reconciled. */
    ghost function Entries(): seq<Entry>
      reads this
    {
      Tag(PClusterRole, clusterRoles) + Tag(PPipeline, pipelines) + Tag(PConfigMap, configMaps)
      + Tag(PRoleBinding, roleBindings) + Tag(PServiceAccount, serviceAccounts)
    }

    constructor (pipelines: seq<Obj>, configMaps: seq<Obj>, roleBindings: seq<Obj>, serviceAccounts: seq<Obj>,
                 clusterRoles: seq<Obj>)
      ensures this.pipelines == pipelines && this.configMaps == configMaps && this.roleBindings == roleBindings
      ensures this.serviceAccounts == serviceAccounts && this.clusterRoles == clusterRoles
    {
      this.pipelines, this.configMaps, this.roleBindings := pipelines, configMaps, roleBindings;
      this.serviceAccounts, this.clusterRoles := serviceAccounts, clusterRoles;
    }

    method Reconcile(cluster: Cluster, cache: VersionCache, inst: CR)
      returns (results: seq<ReconcileResult>, err: Option<Error>)
      modifies this, cluster, cache
      ensures AllOut(cluster.world, cache.versions, Entries(), results, err)
           == ReconcileAll(old(cluster.world), cluster.env, old(cache.versions), inst, old(Entries()), false)
    {
      hide ReconcileAll, ReconcileEntry;
      ghost var w, env, c := cluster.world, cluster.env, cache.versions;
      ghost var a, b, d := Tag(PClusterRole, clusterRoles), Tag(PPipeline, pipelines), Tag(PConfigMap, configMaps);
      ghost var r, s := Tag(PRoleBinding, roleBindings), Tag(PServiceAccount, serviceAccounts);
      ReconcileAppend(w, env, c, inst, a, b, false);
      ReconcileAppend(w, env, c, inst, a + b, d, false);
      ReconcileAppend(w, env, c, inst, a + b + d, r, false);
      ReconcileAppend(w, env, c, inst, a + b + d + r, s, false);
      var more: seq<ReconcileResult>;
      clusterRoles, results, err := ReconcileList(cluster, cache, inst, PClusterRole, clusterRoles);
      if err.Some? {
        return [], err;
      }
      pipelines, more, err := ReconcileList(cluster, cache, inst, PPipeline, pipelines);
      if err.Some? {
        return [], err;
      }
      results := results + more;
      configMaps, more, err := ReconcileList(cluster, cache, inst, PConfigMap, configMaps);
      if err.Some? {
        return [], err;
      }
      results := results + more;
      roleBindings, more, err := ReconcileList(cluster, cache, inst, PRoleBinding, roleBindings);
      if err.Some? {
        return [], err;
      }
      results := results + more;
      serviceAccounts, more, err := ReconcileList(cluster, cache, inst, PServiceAccount, serviceAccounts);
      if err.Some? {
        return [], err;
      }
      results := results + more;
    }

    method Cleanup(cluster: Cluster, inst: CR) returns (res: Result<seq<CleanupResult>>)
      modifies cluster
      ensures CleanAllOut(cluster.world, res) == PipelinesCleaned(old(cluster.world), cluster.env, inst, Entries())
    {
      hide TasksListed, PipelinesListed, Entries;
      var objects: seq<Obj> := [];
      objects := objects + pipelines;
      objects := objects + configMaps;
      objects := objects + roleBindings;
      objects := objects + serviceAccounts;
      objects := objects + clusterRoles;
      EntriesListed();
      assert objects == PipelinesListed(Entries());
      res := DeleteAll(cluster, inst, objects);
    }

    lemma EntriesListed()
      ensures PipelinesListed(Entries())
           == pipelines + configMaps + roleBindings + serviceAccounts + clusterRoles
      ensures TasksListed(Entries()) == []
    {
      SelectFive(TTask);
      SelectFive(TClusterRole);
      SelectFive(TServiceAccount);
      SelectFive(TRoleBinding);
      SelectFive(PPipeline);
      SelectFive(PConfigMap);
      SelectFive(PRoleBinding);
      SelectFive(PServiceAccount);
      SelectFive(PClusterRole);
    }

    lemma SelectFive(rule: Rule)
      ensures Select(Entries(), rule)
           == match rule
              case PClusterRole => clusterRoles
              case PPipeline => pipelines
              case PConfigMap => configMaps
              case PRoleBinding => roleBindings
              case PServiceAccount => serviceAccounts
              case _ => []
    {
      hide Select, Tag;
      var a, b, d := Tag(PClusterRole, clusterRoles), Tag(PPipeline, pipelines), Tag(PConfigMap, configMaps);
      var r, s := Tag(PRoleBinding, roleBindings), Tag(PServiceAccount, serviceAccounts);
      SelectAppend(a, b, rule);
      SelectAppend(a + b, d, rule);
      SelectAppend(a + b + d, r, rule);
      SelectAppend(a + b + d + r, s, rule);
      SelectTag(PClusterRole, clusterRoles, rule);
      SelectTag(PPipeline, pipelines, rule);
      SelectTag(PConfigMap, configMaps, rule);
      SelectTag(PRoleBinding, roleBindings, rule);
      SelectTag(PServiceAccount, serviceAccounts, rule);
    }
  }
}

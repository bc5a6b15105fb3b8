/** The controller of the TektonTasks CR (controllers/tektontasks_controller.go): one pass of its Reconcile
    as a function on the cluster and the operator's memory, and the class that runs it. */
module Controller {
  import opened Kube
  import opened ApiServer
  import opened Cache
  import opened Resource
  import opened Operands
  import opened StatusReport

  // ---------- pure tests on the CR ----------

  const PAUSED_ANNOTATION := "kubevirt.io/operator.paused"

  /** The strings that Go's strconv.ParseBool takes for true. */
  predicate ParsesTrue(s: string) {
    s == "1" || s == "t" || s == "T" || s == "true" || s == "TRUE" || s == "True"
  }

  predicate IsPaused(c: CR) {
    PAUSED_ANNOTATION in c.annotations && ParsesTrue(c.annotations[PAUSED_ANNOTATION])
  }

  predicate IsInitialized(c: CR) {
    c.deleting || c.status.phase != Empty
  }

  function AddFinalizer(c: CR, f: string): CR {
    if f in c.finalizers then c else c.(finalizers := c.finalizers + [f])
  }

  function Without(fs: seq<string>, f: string): (rest: seq<string>)
    ensures forall x :: x in rest <==> x in fs && x != f
  {
    if fs == [] then []
    else if fs[0] == f then Without(fs[1..], f)
    else [fs[0]] + Without(fs[1..], f)
  }

  function RemoveFinalizer(c: CR, f: string): CR {
    c.(finalizers := Without(c.finalizers, f))
  }

  /** The update events of the CR that start a reconciliation. */
  predicate WatchPredicate(before: CR, after: CR) {
    || after.gen != before.gen
    || after.deleting != before.deleting
    || after.labels != before.labels
    || after.annotations != before.annotations
    || after.finalizers != before.finalizers
  }

  // ---------- writes of the CR ----------

  /** A step that may have written the CR: the operator's copy of it, and the error that stopped the step. */
  datatype CrOut = CrOut(w: World, inst: CR, err: Option<Error>)

  function Accepted(inst: CR, r: Reply<CR>): CrOut {
    if r.res.Ok? then CrOut(r.w, r.res.value, None) else CrOut(r.w, inst, Some(r.res.error))
  }

  function StatusWrite(w: World, env: Env, inst: CR): CrOut {
    Accepted(inst, UpdateCrStatus(w, env, inst))
  }

  function MetaWrite(w: World, env: Env, inst: CR): CrOut {
    Accepted(inst, UpdateCr(w, env, inst))
  }

  /** updateTektonTasksResource: the metadata, then phase Deploying. */
  function ResourceWrite(w: World, env: Env, inst: CR): CrOut {
    var meta := MetaWrite(w, env, inst);
    if meta.err.Some? then meta
    else StatusWrite(meta.w, env, meta.inst.(status := DeployingStatus(meta.inst.status, meta.inst.gen)))
  }

  function Initialization(w: World, env: Env, inst: CR): CrOut {
    ResourceWrite(w, env, AddFinalizer(inst, FINALIZER))
  }

  predicate NeedsMigration(c: CR) {
    OLD_FINALIZER in c.finalizers
  }

  function Migrate(w: World, env: Env, inst: CR): CrOut {
    ResourceWrite(w, env, AddFinalizer(RemoveFinalizer(inst, OLD_FINALIZER), FINALIZER))
  }

  datatype Verdict = Finished | Requeue | Failed(error: Error)

  datatype End = End(w: World, verdict: Verdict)

  function ErrorHandled(w: World, env: Env, inst: CR, err: Option<Error>): End {
    if err.None? then End(w, Finished)
    else if err.value == Conflict then End(w, Requeue)
    else
      var out := StatusWrite(w, env, inst.(status := ErrorStatus(inst.status, err.value)));
      End(out.w, Failed(err.value))
  }

  // ---------- deletion ----------

  function Pending(results: seq<CleanupResult>): nat {
    if results == [] then 0 else Pending(results[1..]) + if results[0].deleted then 0 else 1
  }

  /** Cleans up both operands; Ok(n) is the number of objects still there. */
  datatype TeardownOut = TeardownOut(w: World, res: Result<nat>)

  function Teardown(w: World, env: Env, inst: CR, entries: seq<Entry>): TeardownOut {
    var tasks := TasksCleaned(w, env, inst, entries);
    if tasks.res.Err? then TeardownOut(tasks.w, Err(tasks.res.error))
    else
      var pipelines := PipelinesCleaned(tasks.w, env, inst, entries);
      if pipelines.res.Err? then TeardownOut(pipelines.w, Err(pipelines.res.error))
      else TeardownOut(pipelines.w, Ok(Pending(tasks.res.value) + Pending(pipelines.res.value)))
  }

  lemma SameCleaning(w: World, env: Env, inst: CR, a: seq<Entry>, b: seq<Entry>)
    ensures TasksListed(a) == TasksListed(b) ==> TasksCleaned(w, env, inst, a) == TasksCleaned(w, env, inst, b)
    ensures PipelinesListed(a) == PipelinesListed(b) ==>
              PipelinesCleaned(w, env, inst, a) == PipelinesCleaned(w, env, inst, b)
  {
    hide TasksListed, PipelinesListed, ListObjs, CleanedAll;
  }

  function Released(inst: CR): CR {
    RemoveFinalizer(RemoveFinalizer(inst, FINALIZER), OLD_FINALIZER)
  }

  /** The last status write of a cleanup; the CR may be gone by then. */
  function MarkDeleted(w: World, env: Env, inst: CR): CrOut {
    var out := StatusWrite(w, env, inst.(status := DeletedStatus(inst.status, inst.gen)));
    if out.err == Some(Conflict) || out.err == Some(NotFound) then out.(err := None) else out
  }

  function CleanupPass(w: World, env: Env, inst: CR, entries: seq<Entry>): CrOut {
    if !HasOurs(inst) then MarkDeleted(w, env, inst)
    else
      var mark := StatusWrite(w, env, inst.(status := DeletingStatus(inst.status, inst.gen)));
      if mark.err.Some? then mark
      else
        var down := Teardown(mark.w, env, mark.inst, entries);
        if down.res.Err? then CrOut(down.w, mark.inst, Some(down.res.error))
        else if down.res.value > 0 then CrOut(down.w, mark.inst, None)
        else
          var freed := MetaWrite(down.w, env, Released(mark.inst));
          if freed.err.Some? then freed else MarkDeleted(freed.w, env, freed.inst)
  }

  // ---------- one pass ----------

  /** The operator's memory between passes: the version cache, the spec it belongs to, and the operand
      lists with what reconciling has written into them. */
  datatype Memory = Memory(versions: Versions, lastSpec: Spec, entries: seq<Entry>)

  /** The memory of a process that has just started. */
  function Booted(bundle: seq<Entry>): Memory {
    Memory(map[], EMPTY_SPEC, bundle)
  }

  function ClearedIfNeeded(m: Memory, spec: Spec): Memory {
    if m.lastSpec != spec then m.(versions := map[], lastSpec := spec) else m
  }

  datatype PassOut = PassOut(w: World, m: Memory, verdict: Verdict, results: seq<ReconcileResult>)

  function Ended(m: Memory, e: End): PassOut {
    PassOut(e.w, m, e.verdict, [])
  }

  /** `always` stands for the option AlwaysCallUpdateFunc on every resource; the operands leave it off. */
  function Pass(w: World, env: Env, m: Memory, always: bool): PassOut {
    var got := GetCr(w, env);
    if got.res.Err? then
      PassOut(got.w, m, if got.res.error == NotFound then Finished else Failed(got.res.error), [])
    else Serve(got.w, env, ClearedIfNeeded(m, got.res.value.spec), got.res.value, always)
  }

  function Serve(w: World, env: Env, m: Memory, inst: CR, always: bool): PassOut {
    if !IsInitialized(inst) then
      var out := Initialization(w, env, inst);
      Ended(m, ErrorHandled(out.w, env, out.inst, out.err))
    else if NeedsMigration(inst) then
      var out := Migrate(w, env, inst);
      Ended(m, ErrorHandled(out.w, env, out.inst, out.err))
    else if inst.deleting then
      var out := CleanupPass(w, env, inst, m.entries);
      if out.err.Some? then PassOut(out.w, m, Failed(out.err.value), [])
      else PassOut(out.w, Memory(map[], EMPTY_SPEC, m.entries), Finished, [])
    else ServeLive(w, env, m, inst, always)
  }

  function ServeLive(w: World, env: Env, m: Memory, inst: CR, always: bool): PassOut {
    var all := ListCrs(w, env);
    if all.res.Err? then PassOut(all.w, m, Failed(all.res.error), [])
    else if all.res.value.1 > 1 then
      Ended(m, SetStatusMultipleCRs(all.w, env, all.res.value.0))
    else if IsPaused(inst) then Ended(m, Pause(all.w, env, inst))
    else Deploy(all.w, env, m, inst, always)
  }

  function Unhandled(out: CrOut): End {
    End(out.w, if out.err.Some? then Failed(out.err.value) else Finished)
  }

  /** Writes the listed copy of the CR; the writes of the other CRs are not part of this model. */
  function SetStatusMultipleCRs(w: World, env: Env, item: Option<CR>): End {
    if item.None? then End(w, Finished)
    else Unhandled(StatusWrite(w, env, item.value.(status := MultipleStatus(item.value.status))))
  }

  function Pause(w: World, env: Env, inst: CR): End {
    if inst.status.paused then End(w, Finished)
    else Unhandled(StatusWrite(w, env, inst.(status := PausedStatus(inst.status, inst.gen))))
  }

  function ReconcileOperands(w: World, env: Env, m: Memory, inst: CR, always: bool): AllOut {
    if inst.spec.deploy then ReconcileAll(w, env, m.versions, inst, m.entries, always)
    else AllOut(w, m.versions, m.entries, [], None)
  }

  function Deploy(w: World, env: Env, m: Memory, inst: CR, always: bool): PassOut {
    var pre := StatusWrite(w, env, inst.(status := PreStatus(env.cfg, inst.status, inst.gen)));
    if pre.err.Some? then Ended(m, ErrorHandled(pre.w, env, pre.inst, pre.err))
    else
      var ops := ReconcileOperands(pre.w, env, m, pre.inst, always);
      var m' := m.(versions := ops.versions, entries := ops.entries);
      if ops.err == Some(Panicked) then PassOut(ops.w, m', Failed(Panicked), [])
      else if ops.err.Some? then Ended(m', ErrorHandled(ops.w, env, pre.inst, ops.err))
      else
        var post := StatusWrite(ops.w, env, pre.inst.(status :=
                      Aggregated(env.cfg, pre.inst.status, pre.inst.gen, ops.results)));
        var end := ErrorHandled(post.w, env, post.inst, post.err);
        PassOut(end.w, m', end.verdict, ops.results)
  }

  // ---------- the pass as the source runs it ----------

  /** One request: the copy of the CR that the steps of a pass change and write. */
  class Request {
    const cluster: Cluster
    const cache: VersionCache
    var instance: CR

    constructor (cluster: Cluster, cache: VersionCache, instance: CR)
      ensures this.cluster == cluster && this.cache == cache && this.instance == instance
    {
      this.cluster, this.cache, this.instance := cluster, cache, instance;
    }

    method UpdateStatus() returns (err: Option<Error>)
      modifies this, cluster
      ensures CrOut(cluster.world, instance, err) == StatusWrite(old(cluster.world), cluster.env, old(instance))
    {
      var res := cluster.UpdateInstanceStatus(instance);
      if res.Err? {
        return Some(res.error);
      }
      instance := res.value;
      return None;
    }

    method Update() returns (err: Option<Error>)
      modifies this, cluster
      ensures CrOut(cluster.world, instance, err) == MetaWrite(old(cluster.world), cluster.env, old(instance))
    {
      var res := cluster.UpdateInstance(instance);
      if res.Err? {
        return Some(res.error);
      }
      instance := res.value;
      return None;
    }

    method UpdateTektonTasksResource() returns (err: Option<Error>)
      modifies this, cluster
      ensures CrOut(cluster.world, instance, err) == ResourceWrite(old(cluster.world), cluster.env, old(instance))
    {
      err := Update();
      if err.Some? {
        return;
      }
      instance := instance.(status := instance.status.(phase := Deploying));
      instance := instance.(status := instance.status.(observedGeneration := instance.gen));
      err := UpdateStatus();
    }

    method Initialize() returns (err: Option<Error>)
      modifies this, cluster
      ensures CrOut(cluster.world, instance, err)
           == Initialization(old(cluster.world), cluster.env, old(instance))
    {
      instance := AddFinalizer(instance, FINALIZER);
      err := UpdateTektonTasksResource();
    }

    method UpdateTektonTasks() returns (updated: bool, err: Option<Error>)
      modifies this, cluster
      ensures !NeedsMigration(old(instance)) ==>
                !updated && err.None? && cluster.world == old(cluster.world) && instance == old(instance)
      ensures NeedsMigration(old(instance)) ==>
                && CrOut(cluster.world, instance, err) == Migrate(old(cluster.world), cluster.env, old(instance))
                && updated == err.None?
    {
      updated, err := false, None;
      if OLD_FINALIZER in instance.finalizers {
        instance := RemoveFinalizer(instance, OLD_FINALIZER);
        instance := AddFinalizer(instance, FINALIZER);
        updated := true;
      }
      if !updated {
        return;
      }
      err := UpdateTektonTasksResource();
      updated := err.None?;
    }

    method PreUpdateStatus() returns (err: Option<Error>)
      modifies this, cluster
      ensures CrOut(cluster.world, instance, err)
           == StatusWrite(old(cluster.world), cluster.env, old(instance).(status :=
                PreStatus(cluster.env.cfg, old(instance).status, old(instance).gen)))
    {
      var status := instance.status;
      var version := cluster.env.cfg.operatorVersion;
      status := status.(phase := Deploying, observedGeneration := instance.gen);
      status := status.(operatorVersion := version, targetVersion := version);
      status := status.(paused := false);
      var message := "Reconciling Tekton tasks resources";
      if !Holds(status.conditions, Available, False) {
        status := status.(conditions := SetCondition(status.conditions, Condition(Available, False, message)));
      }
      if !Holds(status.conditions, Progressing, True) {
        status := status.(conditions := SetCondition(status.conditions, Condition(Progressing, True, message)));
      }
      if !Holds(status.conditions, Degraded, True) {
        status := status.(conditions := SetCondition(status.conditions, Condition(Degraded, True, message)));
      }
      instance := instance.(status := status);
      err := UpdateStatus();
    }

    method PostUpdateStatus(results: seq<ReconcileResult>) returns (err: Option<Error>)
      modifies this, cluster
      ensures CrOut(cluster.world, instance, err)
           == StatusWrite(old(cluster.world), cluster.env, old(instance).(status :=
                Aggregated(cluster.env.cfg, old(instance).status, old(instance).gen, results)))
    {
      var notAvailable, progressing, degraded := SplitResults(results);
      var status := instance.status;
      status := status.(conditions := SetCondition(status.conditions, Summary(Unavailability, notAvailable)));
      status := status.(conditions := SetCondition(status.conditions, Summary(Progress, progressing)));
      status := status.(conditions := SetCondition(status.conditions, Summary(Degradation, degraded)));
      status := status.(observedGeneration := instance.gen);
      if |notAvailable| == 0 && |progressing| == 0 && |degraded| == 0 {
        status := status.(phase := Deployed);
        status := status.(observedVersion := cluster.env.cfg.operatorVersion);
      } else {
        status := status.(phase := Deploying);
      }
      instance := instance.(status := status);
      err := UpdateStatus();
    }

    method HandleError(errParam: Option<Error>) returns (verdict: Verdict)
      modifies this, cluster
      ensures End(cluster.world, verdict)
           == ErrorHandled(old(cluster.world), cluster.env, old(instance), errParam)
    {
      if errParam.None? {
        return Finished;
      }
      if errParam.value == Conflict {
        return Requeue;
      }
      var message := ErrorText(errParam.value);
      var status := instance.status;
      status := status.(phase := Deploying);
      status := status.(conditions := SetCondition(status.conditions, Condition(Available, False, message)));
      status := status.(conditions := SetCondition(status.conditions, Condition(Progressing, True, message)));
      status := status.(conditions := SetCondition(status.conditions, Condition(Degraded, True, message)));
      instance := instance.(status := status);
      var ignored := UpdateStatus();
      return Failed(errParam.value);
    }
  }

  class TektonTasksReconciler {
    const cluster: Cluster
    const tasks: TektonTasks
    const pipelines: TektonPipelines
    var subresourceCache: VersionCache
    var lastTektonTasksSpec: Spec

    /** The lists of both operands in the order in which they are reconciled. */
    ghost function Entries(): seq<Entry>
      reads tasks, pipelines
    {
      tasks.Entries() + pipelines.Entries()
    }

    ghost function Mem(): Memory
      reads this, subresourceCache, tasks, pipelines
    {
      Memory(subresourceCache.versions, lastTektonTasksSpec, Entries())
    }

    constructor (cluster: Cluster, tasks: TektonTasks, pipelines: TektonPipelines)
      ensures this.cluster == cluster && this.tasks == tasks && this.pipelines == pipelines
      ensures fresh(subresourceCache) && Mem() == Booted(Entries())
    {
      this.cluster, this.tasks, this.pipelines := cluster, tasks, pipelines;
      subresourceCache := new VersionCache();
      lastTektonTasksSpec := EMPTY_SPEC;
    }

    method ClearCacheIfNeeded(spec: Spec)
      modifies this
      ensures Mem() == ClearedIfNeeded(old(Mem()), spec)
      ensures subresourceCache == old(subresourceCache) || fresh(subresourceCache)
    {
      if lastTektonTasksSpec != spec {
        subresourceCache := new VersionCache();
        lastTektonTasksSpec := spec;
      }
    }

    method ClearCache()
      modifies this
      ensures Mem() == Memory(map[], EMPTY_SPEC, old(Entries()))
      ensures fresh(subresourceCache)
    {
      lastTektonTasksSpec := EMPTY_SPEC;
      subresourceCache := new VersionCache();
    }

    method ReconcileOperands(request: Request) returns (results: seq<ReconcileResult>, err: Option<Error>)
      requires request.cluster == cluster && request.cache == subresourceCache
      modifies cluster, tasks, pipelines, subresourceCache
      ensures AllOut(cluster.world, subresourceCache.versions, Entries(), results, err)
           == ReconcileAll(old(cluster.world), cluster.env, old(subresourceCache.versions), request.instance,
                           old(Entries()), false)
    {
      hide ReconcileAll;
      ghost var c := subresourceCache.versions;
      ReconcileAppend(cluster.world, cluster.env, c, request.instance, tasks.Entries(), pipelines.Entries(), false);
      results, err := tasks.Reconcile(cluster, subresourceCache, request.instance);
      if err.Some? {
        return [], err;
      }
      var more: seq<ReconcileResult>;
      more, err := pipelines.Reconcile(cluster, subresourceCache, request.instance);
      if err.Some? {
        return [], err;
      }
      results := results + more;
    }

    lemma ListsSplit()
      ensures TasksListed(Entries()) == TasksListed(tasks.Entries())
      ensures PipelinesListed(Entries()) == PipelinesListed(pipelines.Entries())
    {
      tasks.EntriesListed();
      pipelines.EntriesListed();
      hide Select;
      var a, b := tasks.Entries(), pipelines.Entries();
      SelectAppend(a, b, TTask);
      SelectAppend(a, b, TClusterRole);
      SelectAppend(a, b, TRoleBinding);
      SelectAppend(a, b, TServiceAccount);
      SelectAppend(a, b, PPipeline);
      SelectAppend(a, b, PConfigMap);
      SelectAppend(a, b, PRoleBinding);
      SelectAppend(a, b, PServiceAccount);
      SelectAppend(a, b, PClusterRole);
    }

    method CountPending(results: seq<CleanupResult>) returns (n: nat)
      ensures n == Pending(results)
    {
      n := 0;
      for i := 0 to |results|
        invariant n + Pending(results[i..]) == Pending(results)
      {
        assert results[i..][1..] == results[i + 1..];
        if !results[i].deleted {
          n := n + 1;
        }
      }
    }

    method TearDown(request: Request) returns (pending: Result<nat>)
      requires request.cluster == cluster
      modifies cluster
      ensures TeardownOut(cluster.world, pending)
           == Teardown(old(cluster.world), cluster.env, request.instance, Entries())
    {
      hide TasksCleaned, PipelinesCleaned, TasksListed, PipelinesListed, Entries;
      ListsSplit();
      SameCleaning(cluster.world, cluster.env, request.instance, tasks.Entries(), Entries());
      var first := tasks.Cleanup(cluster, request.instance);
      if first.Err? {
        return Err(first.error);
      }
      var n := CountPending(first.value);
      SameCleaning(cluster.world, cluster.env, request.instance, pipelines.Entries(), Entries());
      var second := pipelines.Cleanup(cluster, request.instance);
      if second.Err? {
        return Err(second.error);
      }
      var k := CountPending(second.value);
      return Ok(n + k);
    }

    method Cleanup(request: Request) returns (err: Option<Error>)
      requires request.cluster == cluster
      modifies cluster, request
      ensures CrOut(cluster.world, request.instance, err)
           == CleanupPass(old(cluster.world), cluster.env, old(request.instance), Entries())
    {
      if FINALIZER in request.instance.finalizers || OLD_FINALIZER in request.instance.finalizers {
        var message := "Deleting Tekton tasks resources";
        var status := request.instance.status;
        status := status.(phase := Deleting);
        status := status.(observedGeneration := request.instance.gen);
        status := status.(conditions := SetCondition(status.conditions, Condition(Available, False, message)));
        status := status.(conditions := SetCondition(status.conditions, Condition(Progressing, True, message)));
        status := status.(conditions := SetCondition(status.conditions, Condition(Degraded, True, message)));
        request.instance := request.instance.(status := status);
        err := request.UpdateStatus();
        if err.Some? {
          return;
        }
        var pending := TearDown(request);
        if pending.Err? {
          return Some(pending.error);
        }
        if pending.value > 0 {
          return None;
        }
        request.instance := RemoveFinalizer(request.instance, FINALIZER);
        request.instance := RemoveFinalizer(request.instance, OLD_FINALIZER);
        err := request.Update();
        if err.Some? {
          return;
        }
      }
      var last := request.instance.status.(phase := Deleted);
      last := last.(observedGeneration := request.instance.gen);
      request.instance := request.instance.(status := last);
      err := request.UpdateStatus();
      if err == Some(Conflict) || err == Some(NotFound) {
        err := None;
      }
    }

    method Reconcile() returns (verdict: Verdict, ghost results: seq<ReconcileResult>)
      modifies this, cluster, tasks, pipelines, subresourceCache
      ensures PassOut(cluster.world, Mem(), verdict, results)
           == Pass(old(cluster.world), cluster.env, old(Mem()), false)
      ensures subresourceCache == old(subresourceCache) || fresh(subresourceCache)
    {
      hide GetCr, ServeLive, CleanupPass, ResourceWrite, ErrorHandled, Without;
      results := [];
      var got := cluster.GetInstance();
      if got == Err(NotFound) {
        return Finished, [];
      }
      if got.Err? {
        return Failed(got.error), [];
      }
      ClearCacheIfNeeded(got.value.spec);
      var request := new Request(cluster, subresourceCache, got.value);
      if !IsInitialized(request.instance) {
        var err := request.Initialize();
        verdict := request.HandleError(err);
        return;
      }
      var updated, merr := request.UpdateTektonTasks();
      if updated || merr.Some? {
        verdict := request.HandleError(merr);
        return;
      }
      if request.instance.deleting {
        var err := Cleanup(request);
        if err.Some? {
          return Failed(err.value), [];
        }
        ClearCache();
        return Finished, [];
      }
      verdict, results := ReconcileLive(request);
    }

    /** The part of Reconcile that serves an initialized CR that is not being deleted. */
    method ReconcileLive(request: Request) returns (verdict: Verdict, ghost results: seq<ReconcileResult>)
      requires request.cluster == cluster && request.cache == subresourceCache
      modifies request, cluster, tasks, pipelines, subresourceCache
      ensures PassOut(cluster.world, Mem(), verdict, results)
           == ServeLive(old(cluster.world), cluster.env, old(Mem()), old(request.instance), false)
    {
      hide ListCrs, PreStatus, Aggregated, MultipleStatus, ErrorHandled, ReconcileAll, IsPaused, UpdateCrStatus;
      results := [];
      var all := cluster.ListInstances();
      if all.Err? {
        return Failed(all.error), [];
      }
      if all.value.1 > 1 {
        if all.value.0.Some? {
          var item := all.value.0.value;
          var res := cluster.UpdateInstanceStatus(item.(status := MultipleStatus(item.status)));
          if res.Err? {
            return Failed(res.error), [];
          }
        }
        return Finished, [];
      }
      if IsPaused(request.instance) {
        if request.instance.status.paused {
          return Finished, [];
        }
        var status := request.instance.status.(paused := true);
        status := status.(observedGeneration := request.instance.gen);
        request.instance := request.instance.(status := status);
        var err := request.UpdateStatus();
        return if err.Some? then Failed(err.value) else Finished, [];
      }
      var err := request.PreUpdateStatus();
      if err.Some? {
        verdict := request.HandleError(err);
        return;
      }
      var collected: seq<ReconcileResult> := [];
      if request.instance.spec.deploy {
        collected, err := ReconcileOperands(request);
        if err == Some(Panicked) {
          return Failed(Panicked), [];
        }
        if err.Some? {
          verdict := request.HandleError(err);
          return;
        }
      }
      results := collected;
      err := request.PostUpdateStatus(collected);
      verdict := request.HandleError(err);
    }
  }
}

/** Which of its own writes wake the operator up again (watchTektonResource), and why that comes to an end. */
module Triggers {
  import opened Kube
  import opened ApiServer
  import opened Operands
  import opened StatusReport
  import opened Controller
  import opened Tracking
  import opened Lifecycle
  import opened Runs

  /** The event of this write starts a pass: only update events are filtered. */
  predicate Starts(e: Write) {
    match e
    case CrStatus(before, after) => after.Some? && WatchPredicate(before, after.value)
    case CrWritten(before, after) => after.Some? ==> WatchPredicate(before, after.value)
    case _ => false
  }

  /** How many of the operator's own writes of the CR have started a pass. */
  function Started(audit: seq<Write>): nat {
    if audit == [] then 0
    else Started(audit[..|audit| - 1]) + if Starts(audit[|audit| - 1]) then 1 else 0
  }

  lemma {:induction false} StartedTrace(audit: seq<Write>)
    ensures Started(CrTrace(audit)) == Started(audit)
  {
    if audit != [] {
      StartedTrace(audit[..|audit| - 1]);
      StartedAppend(CrTrace(audit[..|audit| - 1]), audit[|audit| - 1]);
    }
  }

  lemma StartedAppend(audit: seq<Write>, e: Write)
    ensures Started(audit + [e]) == Started(audit) + if Starts(e) then 1 else 0
  {
    assert (audit + [e])[..|audit|] == audit;
  }

  lemma SameStarts(audit: seq<Write>, audit': seq<Write>)
    requires CrTrace(audit) == CrTrace(audit')
    ensures Started(audit) == Started(audit')
  {
    StartedTrace(audit);
    StartedTrace(audit');
  }

  /** As long as users leave the CR alone, its labels, annotations, spec and deletion mark stay. */
  ghost predicate CrStays(w: World, w': World) {
    && w.touches <= w'.touches
    && (w.cr.Some? && !w.cr.value.deleting && w.touches == w'.touches ==>
          w'.cr.Some? && SameMeta(w'.cr.value, w.cr.value))
  }

  /** Every write that starts a pass is paid for: by the stake of the CR, or by a user's change of it. */
  ghost predicate Spent(w: World, w': World) {
    && CrStays(w, w')
    && Started(w'.audit) + Stake(w'.cr) <= Started(w.audit) + Stake(w.cr) + 2 * (w'.touches - w.touches)
  }

  lemma EvolvesSpent(w: World, w': World)
    requires Evolves(w, w')
    ensures Spent(w, w')
  {
    hide ObjsEvolve, Stake, Started, CrTrace;
    SameStarts(w.audit, w'.audit);
  }

  lemma SpentNothing(w: World)
    ensures Spent(w, w)
  {
    hide Stake, Started;
  }

  lemma SpentTransitive(w: World, w1: World, w2: World)
    requires Spent(w, w1) && Spent(w1, w2)
    ensures Spent(w, w2)
  {
    hide Stake, Started;
  }

  // ---------- single writes ----------

  /** Status writes never start a pass. */
  lemma StatusWritesStartNothing(w: World, s: Status)
    requires w.cr.Some?
    ensures var w' := StatusReplaced(w, s); Started(w'.audit) == Started(w.audit) && Stake(w'.cr) == Stake(w.cr)
  {
    var w' := StatusReplaced(w, s);
    if w' != w {
      StartedAppend(w.audit, CrStatus(w.cr.value, w'.cr));
    }
  }

  lemma StatusSpent(w: World, env: Env, inst: CR, s: Status)
    requires Valid(w, env.home) && Copy(w, env.home, inst)
    ensures var out := StatusWrite(w, env, inst.(status := s));
            Spent(w, out.w) && Valid(out.w, env.home) && Copy(out.w, env.home, out.inst) && SameMeta(out.inst, inst)
    ensures Spent(w, Begin(w, env))
  {
    hide StatusWrite, Valid, Copy, Evolves, Begin, Stake, Started;
    var w1 := Begin(w, env);
    CopyPasses(w, env.home, inst, inst.(status := s));
    StatusWriteEffect(w, env, inst.(status := s));
    BeginKeeps(w, env);
    EvolvesSpent(w, w1);
    if w1.cr.Some? {
      StatusWritesStartNothing(w1, s);
    }
  }

  lemma CopyPasses(w: World, home: Name, inst: CR, next: CR)
    requires Copy(w, home, inst) && SameMeta(next, inst) && next.rv == inst.rv
    ensures Copy(w, home, next)
  {
  }

  /** The operator's changes of the finalizers always lower the stake. */
  predicate Lighter(inst: CR, fs: seq<string>) {
    fs != inst.finalizers ==> Stake(Some(inst.(finalizers := fs))) < Stake(Some(inst))
  }

  lemma InitializationLighter(inst: CR)
    requires !inst.deleting
    ensures Lighter(inst, AddFinalizer(inst, FINALIZER).finalizers)
  {
    FinalizersDiffer();
  }

  lemma FinalizersDiffer()
    ensures FINALIZER != OLD_FINALIZER
  {
    assert |FINALIZER| != |OLD_FINALIZER|;
  }

  lemma MigrationLighter(inst: CR)
    requires NeedsMigration(inst)
    ensures Lighter(inst, AddFinalizer(RemoveFinalizer(inst, OLD_FINALIZER), FINALIZER).finalizers)
  {
    FinalizersDiffer();
  }

  lemma ReleaseLighter(inst: CR)
    requires inst.deleting && HasOurs(inst)
    ensures Lighter(inst, Released(inst).finalizers)
  {
    FinalizersDiffer();
  }

  lemma ReplacedSpent(w: World, inst: CR, fs: seq<string>)
    requires w.cr == Some(inst) && Lighter(inst, fs)
    ensures Spent(w, CrReplaced(w, inst.(finalizers := fs)))
  {
    var w' := CrReplaced(w, inst.(finalizers := fs));
    if w' != w {
      StartedAppend(w.audit, CrWritten(inst, w'.cr));
    }
    hide HasOurs;
  }

  lemma MetaSpent(w: World, env: Env, inst: CR, fs: seq<string>)
    requires Valid(w, env.home) && Copy(w, env.home, inst) && Mirror(w, inst) && Lighter(inst, fs)
    ensures var out := MetaWrite(w, env, inst.(finalizers := fs));
            Spent(w, out.w) && Valid(out.w, env.home) && Copy(out.w, env.home, out.inst)
  {
    hide MetaWrite, Valid, Copy, Evolves, Begin, Spent, Lighter, CrReplaced;
    var w1 := Begin(w, env);
    CopyPasses(w, env.home, inst, inst.(finalizers := fs));
    MetaWriteEffect(w, env, inst.(finalizers := fs));
    BeginKeeps(w, env);
    EvolvesSpent(w, w1);
    MirrorEvolves(w, w1, env.home, inst);
    if w1.cr == Some(inst) {
      ReplacedSpent(w1, inst, fs);
      SpentTransitive(w, w1, CrReplaced(w1, inst.(finalizers := fs)));
    }
  }

  // ---------- the stages of a pass ----------

  lemma ErrorHandledSpent(w: World, env: Env, inst: CR, err: Option<Error>)
    requires Valid(w, env.home) && Copy(w, env.home, inst)
    ensures Spent(w, ErrorHandled(w, env, inst, err).w)
  {
    hide StatusWrite, Copy, ErrorStatus, Valid;
    if err.Some? && err.value != Conflict {
      StatusSpent(w, env, inst, ErrorStatus(inst.status, err.value));
    }
  }

  lemma WriteAndHandleSpent(w: World, env: Env, inst: CR, fs: seq<string>)
    requires Valid(w, env.home) && Copy(w, env.home, inst) && Mirror(w, inst) && Lighter(inst, fs)
    ensures var out := ResourceWrite(w, env, inst.(finalizers := fs));
            Spent(w, ErrorHandled(out.w, env, out.inst, out.err).w)
  {
    hide MetaWrite, StatusWrite, ErrorHandled, Copy, Valid, Spent, Mirror, Lighter;
    MetaSpent(w, env, inst, fs);
    var meta := MetaWrite(w, env, inst.(finalizers := fs));
    if meta.err.None? {
      var s := DeployingStatus(meta.inst.status, meta.inst.gen);
      StatusSpent(meta.w, env, meta.inst, s);
      SpentTransitive(w, meta.w, StatusWrite(meta.w, env, meta.inst.(status := s)).w);
    }
    var out := ResourceWrite(w, env, inst.(finalizers := fs));
    ErrorHandledSpent(out.w, env, out.inst, out.err);
    SpentTransitive(w, out.w, ErrorHandled(out.w, env, out.inst, out.err).w);
  }

  lemma MarkDeletedSpent(w: World, env: Env, inst: CR)
    requires Valid(w, env.home) && Copy(w, env.home, inst)
    ensures Spent(w, MarkDeleted(w, env, inst).w)
  {
    hide StatusWrite, Copy, Valid, Spent;
    StatusSpent(w, env, inst, DeletedStatus(inst.status, inst.gen));
  }

  lemma CleanupPassSpent(w: World, env: Env, inst: CR, entries: seq<Entry>)
    requires Valid(w, env.home) && Copy(w, env.home, inst) && w.cr == Some(inst) && inst.deleting
    ensures Spent(w, CleanupPass(w, env, inst, entries).w)
  {
    hide StatusWrite, MetaWrite, MarkDeleted, Teardown, Copy, Valid, Evolves, Spent, DeletingStatus, HasOurs, Lighter,
         Without, Advances, Good, Fits;
    if !HasOurs(inst) {
      MarkDeletedSpent(w, env, inst);
    } else {
      var s := DeletingStatus(inst.status, inst.gen);
      StatusSpent(w, env, inst, s);
      ExactStatusWrite(w, env, inst, s);
      var mark := StatusWrite(w, env, inst.(status := s));
      if mark.err.None? {
        TeardownKeeps(mark.w, env, mark.inst, entries);
        var down := Teardown(mark.w, env, mark.inst, entries);
        EvolvesSpent(mark.w, down.w);
        SpentTransitive(w, mark.w, down.w);
        CopyEvolves(mark.w, down.w, env.home, mark.inst);
        MirrorEvolves(mark.w, down.w, env.home, mark.inst);
        var fs := Released(mark.inst).finalizers;
        assert Released(mark.inst) == mark.inst.(finalizers := fs);
        SameHold(inst, mark.inst);
        ReleaseLighter(mark.inst);
        MetaSpent(down.w, env, mark.inst, fs);
        var freed := MetaWrite(down.w, env, Released(mark.inst));
        SpentTransitive(w, down.w, freed.w);
        MarkDeletedSpent(freed.w, env, freed.inst);
        SpentTransitive(w, freed.w, MarkDeleted(freed.w, env, freed.inst).w);
      }
    }
  }

  lemma SameHold(a: CR, b: CR)
    requires a.finalizers == b.finalizers
    ensures HasOurs(a) == HasOurs(b)
  {
  }

  /** A successful status write through an exact copy leaves an exact copy. */
  lemma ExactStatusWrite(w: World, env: Env, inst: CR, s: Status)
    requires Valid(w, env.home) && Copy(w, env.home, inst) && Mirror(w, inst)
    ensures var out := StatusWrite(w, env, inst.(status := s));
            out.err.None? ==> && out.inst == inst.(status := s, rv := out.inst.rv)
                              && out.w.cr == Some(out.inst) && Mirror(out.w, out.inst)
  {
    hide Valid, Evolves, Begin, StatusWrite;
    var w1 := Begin(w, env);
    CopyPasses(w, env.home, inst, inst.(status := s));
    StatusWriteEffect(w, env, inst.(status := s));
    BeginKeeps(w, env);
    MirrorEvolves(w, w1, env.home, inst);
  }

  lemma DeploySpent(w: World, env: Env, m: Memory, inst: CR)
    requires Valid(w, env.home) && Copy(w, env.home, inst)
    ensures Spent(w, Deploy(w, env, m, inst, false).w)
  {
    hide StatusWrite, ErrorHandled, ReconcileOperands, PreStatus, Aggregated, Copy, Valid, Evolves, Spent;
    var s := PreStatus(env.cfg, inst.status, inst.gen);
    StatusSpent(w, env, inst, s);
    var pre := StatusWrite(w, env, inst.(status := s));
    ErrorHandledSpent(pre.w, env, pre.inst, pre.err);
    SpentTransitive(w, pre.w, ErrorHandled(pre.w, env, pre.inst, pre.err).w);
    OperandsKeep(pre.w, env, m, pre.inst, false);
    var ops := ReconcileOperands(pre.w, env, m, pre.inst, false);
    EvolvesSpent(pre.w, ops.w);
    SpentTransitive(w, pre.w, ops.w);
    CopyEvolves(pre.w, ops.w, env.home, pre.inst);
    ErrorHandledSpent(ops.w, env, pre.inst, ops.err);
    SpentTransitive(w, ops.w, ErrorHandled(ops.w, env, pre.inst, ops.err).w);
    var done := Aggregated(env.cfg, pre.inst.status, pre.inst.gen, ops.results);
    StatusSpent(ops.w, env, pre.inst, done);
    var post := StatusWrite(ops.w, env, pre.inst.(status := done));
    SpentTransitive(w, ops.w, post.w);
    ErrorHandledSpent(post.w, env, post.inst, post.err);
    SpentTransitive(w, post.w, ErrorHandled(post.w, env, post.inst, post.err).w);
  }

  lemma ServeLiveSpent(w: World, env: Env, m: Memory, inst: CR)
    requires Valid(w, env.home) && Copy(w, env.home, inst)
    ensures Spent(w, ServeLive(w, env, m, inst, false).w)
  {
    hide ListCrs, StatusWrite, MultipleStatus, PausedStatus, Deploy, Copy, Valid, Evolves, Spent, IsPaused;
    ListEffect(w, env);
    var all := ListCrs(w, env);
    EvolvesSpent(w, all.w);
    CopyEvolves(w, all.w, env.home, inst);
    if all.res.Ok? {
      if all.res.value.1 > 1 {
        if all.res.value.0.Some? {
          var item := all.res.value.0.value;
          CopyOfStored(all.w, env.home);
          StatusSpent(all.w, env, item, MultipleStatus(item.status));
          SpentTransitive(w, all.w, StatusWrite(all.w, env, item.(status := MultipleStatus(item.status))).w);
        }
      } else if IsPaused(inst) {
        StatusSpent(all.w, env, inst, PausedStatus(inst.status, inst.gen));
        SpentTransitive(w, all.w, StatusWrite(all.w, env, inst.(status := PausedStatus(inst.status, inst.gen))).w);
      } else {
        DeploySpent(all.w, env, m, inst);
        SpentTransitive(w, all.w, Deploy(all.w, env, m, inst, false).w);
      }
    }
  }

  lemma ServeSpent(w: World, env: Env, m: Memory, inst: CR)
    requires Valid(w, env.home) && w.cr == Some(inst)
    ensures Spent(w, Serve(w, env, m, inst, false).w)
  {
    hide ServeLive, ErrorHandled, ResourceWrite, CleanupPass, Without, Copy, Valid, Spent, Lighter, Mirror;
    CopyOfStored(w, env.home);
    ExactCopy(w, inst);
    if !IsInitialized(inst) {
      InitializationLighter(inst);
      WriteAndHandleSpent(w, env, inst, AddFinalizer(inst, FINALIZER).finalizers);
    } else if NeedsMigration(inst) {
      MigrationLighter(inst);
      WriteAndHandleSpent(w, env, inst, AddFinalizer(RemoveFinalizer(inst, OLD_FINALIZER), FINALIZER).finalizers);
    } else if inst.deleting {
      CleanupPassSpent(w, env, inst, m.entries);
    } else {
      ServeLiveSpent(w, env, m, inst);
    }
  }

  lemma PassSpent(w: World, env: Env, m: Memory)
    requires Valid(w, env.home)
    ensures Spent(w, Pass(w, env, m, false).w) && Valid(Pass(w, env, m, false).w, env.home)
  {
    hide GetCr, Serve, Copy, Valid, Evolves, Spent, Kept;
    PassKept(w, env, m, false);
    KeptValid(w, Pass(w, env, m, false).w, env.home);
    ReadEffect(w, env);
    var got := GetCr(w, env);
    EvolvesSpent(w, got.w);
    if got.res.Ok? {
      var m1 := ClearedIfNeeded(m, got.res.value.spec);
      ServeSpent(got.w, env, m1, got.res.value);
      SpentTransitive(w, got.w, Serve(got.w, env, m1, got.res.value, false).w);
    }
  }

  // ---------- whole runs ----------

  lemma {:induction false} RunSpent(w: World, env: Env, m: Memory, bundle: seq<Entry>, steps: seq<Event>)
    requires Valid(w, env.home)
    ensures Spent(w, Run(w, env, m, bundle, steps, false).w)
    decreases |steps|
  {
    hide Pass, Valid, Spent;
    if steps == [] {
      SpentNothing(w);
    } else {
      if steps[0].Restart? {
        RunSpent(w, env, Booted(bundle), bundle, steps[1..]);
      } else {
        PassSpent(w, env, m);
        var out := Pass(w, env, m, false);
        RunSpent(out.w, env, out.m, bundle, steps[1..]);
        SpentTransitive(w, out.w, Run(out.w, env, out.m, bundle, steps[1..], false).w);
      }
    }
  }

  lemma StakeBounded(cr: Option<CR>)
    ensures Stake(cr) <= 2
  {
  }

  /** Self-trigger termination: over any run, under any faults, at most two of the operator's own writes start
      a pass, plus two for each change that a user makes to the CR; and no status write is among them. */
  lemma SelfTriggersEnd(w: World, env: Env, m: Memory, bundle: seq<Entry>, steps: seq<Event>)
    requires Beginning(w, env.home)
    ensures var out := Run(w, env, m, bundle, steps, false).w;
            && Started(out.audit) <= Stake(w.cr) + 2 * (out.touches - w.touches)
            && Stake(w.cr) <= 2
            && forall e <- out.audit :: e.CrStatus? ==> !Starts(e)
  {
    hide Run, Stake, Coherent, UniqueTypes;
    var out := Run(w, env, m, bundle, steps, false).w;
    var mode := Mode(false, false);
    RunSpent(w, env, m, bundle, steps);
    StakeBounded(w.cr);
    BeginningGood(mode, w, env.home);
    RunAdvances(mode, w, env, m, bundle, steps);
    AdvancesParts(mode, w, out, env.home);
    forall e <- out.audit | e.CrStatus?
      ensures !Starts(e)
    {
      assert EventFits(mode, e);
    }
  }

  // ---------- an early return is followed by another pass ----------

  /** A finalizer write that succeeds starts a pass exactly if it changes the finalizers. */
  lemma ResourceWriteStarts(w: World, env: Env, inst: CR, fs: seq<string>)
    requires Valid(w, env.home) && w.cr == Some(inst) && fs != []
    ensures var out := ResourceWrite(w, env, inst.(finalizers := fs));
            out.err.None? ==> Started(out.w.audit) == Started(w.audit) + if fs != inst.finalizers then 1 else 0
  {
    hide Valid, Evolves, Begin, MetaWrite, StatusWrite, Started;
    var w1 := Begin(w, env);
    CopyOfStored(w, env.home);
    BeginKeeps(w, env);
    MirrorEvolves(w, w1, env.home, inst);
    MetaWriteEffect(w, env, inst.(finalizers := fs));
    var meta := MetaWrite(w, env, inst.(finalizers := fs));
    if meta.err.None? {
      if meta.w != w1 {
        StartedAppend(w.audit, CrWritten(inst, meta.w.cr));
      }
      var s := DeployingStatus(meta.inst.status, meta.inst.gen);
      BeginKeeps(meta.w, env);
      StatusWriteEffect(meta.w, env, meta.inst.(status := s));
      if Begin(meta.w, env).cr.Some? {
        StatusWritesStartNothing(Begin(meta.w, env), s);
      }
    }
  }

  /** Initializing a CR starts the next pass exactly if the finalizer was not there yet: a CR that was created
      with the finalizer is marked as deploying, and then nothing goes on by itself. */
  lemma InitializationStarts(w: World, env: Env, inst: CR)
    requires Valid(w, env.home) && w.cr == Some(inst)
    ensures var out := Initialization(w, env, inst);
            out.err.None? ==>
              Started(out.w.audit) == Started(w.audit) + if FINALIZER in inst.finalizers then 0 else 1
  {
    hide Valid, ResourceWrite, Started;
    var fs := AddFinalizer(inst, FINALIZER).finalizers;
    ResourceWriteStarts(w, env, inst, fs);
    assert AddFinalizer(inst, FINALIZER) == inst.(finalizers := fs);
  }

  /** Migrating the finalizer always starts the next pass. */
  lemma MigrationStarts(w: World, env: Env, inst: CR)
    requires Valid(w, env.home) && w.cr == Some(inst) && NeedsMigration(inst)
    ensures var out := Migrate(w, env, inst);
            out.err.None? ==> Started(out.w.audit) == Started(w.audit) + 1
  {
    hide Valid, ResourceWrite, Started;
    FinalizersDiffer();
    var next := AddFinalizer(RemoveFinalizer(inst, OLD_FINALIZER), FINALIZER);
    assert OLD_FINALIZER !in next.finalizers && FINALIZER in next.finalizers;
    ResourceWriteStarts(w, env, inst, next.finalizers);
    assert next == inst.(finalizers := next.finalizers);
  }

  // ---------- exactly the changes that matter start a pass ----------

  /** A pass may have something to do: the spec, the labels, the annotations (which hold the pause), the finalizers
      or the deletion mark of the CR are different. */
  predicate Matters(before: CR, after: CR) {
    || after.spec != before.spec || after.labels != before.labels || after.annotations != before.annotations
    || after.finalizers != before.finalizers || after.deleting != before.deleting
  }

  /** Whatever a user does to the CR, and whatever the operator writes, starts a pass if and only if it matters. */
  lemma WatchedExactly(w: World, home: Name, e: Edit, inst: CR, s: Status)
    requires w.cr.Some?
    ensures var w' := ApplyEdit(w, home, e);
            w'.cr.Some? ==> (WatchPredicate(w.cr.value, w'.cr.value) <==> Matters(w.cr.value, w'.cr.value))
    ensures var w' := CrReplaced(w, inst);
            w'.cr.Some? ==> (WatchPredicate(w.cr.value, w'.cr.value) <==> Matters(w.cr.value, w'.cr.value))
    ensures var w' := StatusReplaced(w, s);
            !WatchPredicate(w.cr.value, w'.cr.value) && !Matters(w.cr.value, w'.cr.value)
  {
  }

  /** So a user who changes the spec, the labels or the annotations, or deletes a CR that finalizers hold, starts a
      pass. */
  lemma UsersAreHeard(w: World, home: Name, spec: Spec, labels: Option<map<string, string>>,
                      annotations: map<string, string>)
    requires w.cr.Some?
    ensures var c, w' := w.cr.value, ApplyEdit(w, home, EditCr(spec, labels, annotations));
            && w'.cr.Some?
            && (WatchPredicate(c, w'.cr.value)
                <==> spec != c.spec || labels != c.labels || annotations != c.annotations)
    ensures var c, w' := w.cr.value, ApplyEdit(w, home, DeleteCr);
            !c.deleting && c.finalizers != [] ==> w'.cr.Some? && WatchPredicate(c, w'.cr.value)
  {
  }

  /** Also when several changes reach the operator as one: as long as it is the same CR, a difference that matters
      starts a pass. */
  lemma CoalescedAreHeard(w: World, home: Name, edits: seq<Edit>)
    requires Valid(w, home) && w.cr.Some?
    ensures var w' := ApplyEdits(w, home, edits);
            w'.cr.Some? && w'.cr.value.uid == w.cr.value.uid && Matters(w.cr.value, w'.cr.value) ==>
              WatchPredicate(w.cr.value, w'.cr.value)
  {
    hide ApplyEdits, ObjsEvolve, CrTrace, Stake;
    EditsKeep(w, home, edits);
  }
}

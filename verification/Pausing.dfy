/** A paused operator, and one whose feature gate is off, leaves the operand objects alone. */
module Pausing {
  import opened Kube
  import opened ApiServer
  import opened Operands
  import opened StatusReport
  import opened Controller
  import opened Tracking
  import opened Lifecycle
  import opened Triggers
  import opened Runs

  /** Passes for this CR must not touch operand objects. */
  predicate Off(c: CR) {
    !c.deleting && (IsPaused(c) || !c.spec.deploy)
  }

  /** No operand object has been written or deleted. */
  ghost predicate Untouched(w: World, w': World) {
    && w.audit <= w'.audit
    && forall i | |w.audit| <= i < |w'.audit| :: w'.audit[i].CrStatus? || w'.audit[i].CrWritten?
  }

  lemma UntouchedTransitive(w: World, w1: World, w2: World)
    requires Untouched(w, w1) && Untouched(w1, w2)
    ensures Untouched(w, w2)
  {
  }

  lemma SameAuditUntouched(w: World, w': World)
    requires w'.audit == w.audit
    ensures Untouched(w, w')
  {
  }

  // ---------- one pass ----------

  lemma WritesUntouched(w: World, env: Env, inst: CR)
    requires Valid(w, env.home)
    ensures Untouched(w, StatusWrite(w, env, inst).w) && Untouched(w, MetaWrite(w, env, inst).w)
  {
    hide Begin, Valid, Evolves;
    BeginKeeps(w, env);
  }

  lemma ErrorHandledUntouched(w: World, env: Env, inst: CR, err: Option<Error>)
    requires Valid(w, env.home)
    ensures Untouched(w, ErrorHandled(w, env, inst, err).w)
  {
    hide StatusWrite, Valid, Untouched, ErrorStatus;
    SameAuditUntouched(w, w);
    if err.Some? {
      WritesUntouched(w, env, inst.(status := ErrorStatus(inst.status, err.value)));
    }
  }

  lemma WriteAndHandleUntouched(w: World, env: Env, inst: CR, fs: seq<string>)
    requires Valid(w, env.home) && Copy(w, env.home, inst)
    ensures var out := ResourceWrite(w, env, inst.(finalizers := fs));
            Untouched(w, ErrorHandled(out.w, env, out.inst, out.err).w)
  {
    hide MetaWrite, StatusWrite, ErrorHandled, Copy, Valid, Untouched, Kept;
    var next := inst.(finalizers := fs);
    MetaWriteKeeps(w, env, inst, fs);
    WritesUntouched(w, env, next);
    var meta := MetaWrite(w, env, next);
    KeptValid(w, meta.w, env.home);
    var s := DeployingStatus(meta.inst.status, meta.inst.gen);
    WritesUntouched(meta.w, env, meta.inst.(status := s));
    UntouchedTransitive(w, meta.w, StatusWrite(meta.w, env, meta.inst.(status := s)).w);
    ResourceWriteKeeps(w, env, inst, fs);
    var out := ResourceWrite(w, env, next);
    KeptValid(w, out.w, env.home);
    ErrorHandledUntouched(out.w, env, out.inst, out.err);
    UntouchedTransitive(w, out.w, ErrorHandled(out.w, env, out.inst, out.err).w);
  }

  /** With the gate off a full pass only writes the status. */
  lemma DeployOff(w: World, env: Env, m: Memory, inst: CR)
    requires Valid(w, env.home) && Copy(w, env.home, inst) && !inst.spec.deploy
    ensures var out := Deploy(w, env, m, inst, false);
            Untouched(w, out.w) && out.results == [] && out.m == m
  {
    hide StatusWrite, ErrorHandled, PreStatus, Aggregated, ReconcileAll, Copy, Valid, Untouched, Kept;
    var s := PreStatus(env.cfg, inst.status, inst.gen);
    StatusWriteKeeps(w, env, inst, s);
    WritesUntouched(w, env, inst.(status := s));
    var pre := StatusWrite(w, env, inst.(status := s));
    KeptValid(w, pre.w, env.home);
    ErrorHandledUntouched(pre.w, env, pre.inst, pre.err);
    UntouchedTransitive(w, pre.w, ErrorHandled(pre.w, env, pre.inst, pre.err).w);
    var done := Aggregated(env.cfg, pre.inst.status, pre.inst.gen, []);
    StatusWriteKeeps(pre.w, env, pre.inst, done);
    WritesUntouched(pre.w, env, pre.inst.(status := done));
    var post := StatusWrite(pre.w, env, pre.inst.(status := done));
    KeptValid(pre.w, post.w, env.home);
    UntouchedTransitive(w, pre.w, post.w);
    ErrorHandledUntouched(post.w, env, post.inst, post.err);
    UntouchedTransitive(w, post.w, ErrorHandled(post.w, env, post.inst, post.err).w);
  }

  lemma ServeLiveOff(w: World, env: Env, m: Memory, inst: CR)
    requires Valid(w, env.home) && Copy(w, env.home, inst) && Off(inst)
    ensures var out := ServeLive(w, env, m, inst, false);
            Untouched(w, out.w) && out.results == [] && out.m == m
  {
    hide ListCrs, StatusWrite, Deploy, MultipleStatus, PausedStatus, Copy, Valid, Evolves, Untouched, IsPaused;
    ListEffect(w, env);
    var all := ListCrs(w, env);
    SameAuditUntouched(w, all.w);
    if all.res.Ok? {
      if all.res.value.1 > 1 {
        if all.res.value.0.Some? {
          var item := all.res.value.0.value;
          WritesUntouched(all.w, env, item.(status := MultipleStatus(item.status)));
          UntouchedTransitive(w, all.w, StatusWrite(all.w, env, item.(status := MultipleStatus(item.status))).w);
        }
      } else if IsPaused(inst) {
        WritesUntouched(all.w, env, inst.(status := PausedStatus(inst.status, inst.gen)));
        UntouchedTransitive(w, all.w, StatusWrite(all.w, env, inst.(status := PausedStatus(inst.status, inst.gen))).w);
      } else {
        CopyEvolves(w, all.w, env.home, inst);
        DeployOff(all.w, env, m, inst);
        UntouchedTransitive(w, all.w, Deploy(all.w, env, m, inst, false).w);
      }
    }
  }

  /** A pass that reads a paused CR, or one with the gate off, writes no operand object, reports no result and
      leaves the operand lists as they are, whatever users do and whichever calls fail. */
  lemma OffPassWritesNothing(w: World, env: Env, m: Memory)
    requires Valid(w, env.home) && (GetCr(w, env).res.Ok? ==> Off(GetCr(w, env).res.value))
    ensures var out := Pass(w, env, m, false);
            Untouched(w, out.w) && out.results == [] && out.m.entries == m.entries
  {
    hide GetCr, ServeLive, ErrorHandled, ResourceWrite, Without, Copy, Valid, Evolves, Untouched, IsPaused;
    ReadEffect(w, env);
    var got := GetCr(w, env);
    SameAuditUntouched(w, got.w);
    if got.res.Ok? {
      var inst := got.res.value;
      if !IsInitialized(inst) {
        WriteAndHandleUntouched(got.w, env, inst, AddFinalizer(inst, FINALIZER).finalizers);
      } else if NeedsMigration(inst) {
        WriteAndHandleUntouched(got.w, env, inst,
                                AddFinalizer(RemoveFinalizer(inst, OLD_FINALIZER), FINALIZER).finalizers);
      } else {
        ServeLiveOff(got.w, env, ClearedIfNeeded(m, inst.spec), inst);
      }
      UntouchedTransitive(w, got.w, Pass(w, env, m, false).w);
    }
  }

  // ---------- long runs ----------

  lemma PassStays(w: World, env: Env, m: Memory)
    requires Valid(w, env.home) && w.cr.Some? && Off(w.cr.value)
    requires Pass(w, env, m, false).w.touches == w.touches
    ensures var out := Pass(w, env, m, false).w;
            && out.cr.Some? && Off(out.cr.value) && SameMeta(out.cr.value, w.cr.value)
            && (GetCr(w, env).res.Ok? ==> GetCr(w, env).res.value == w.cr.value)
  {
    hide GetCr, Serve, Valid, Started, Stake, ParsesTrue, ObjsEvolve, CrTrace;
    PassSpent(w, env, m);
    ReadEffect(w, env);
    var got := GetCr(w, env);
    if got.res.Ok? {
      ServeSpent(got.w, env, ClearedIfNeeded(m, got.res.value.spec), got.res.value);
    }
  }

  /** As long as users leave a paused CR, or one with the gate off, alone, no run touches an operand object. */
  lemma {:induction false} OffRunWritesNothing(w: World, env: Env, m: Memory, bundle: seq<Entry>, steps: seq<Event>)
    requires Valid(w, env.home) && w.cr.Some? && Off(w.cr.value)
    requires Run(w, env, m, bundle, steps, false).w.touches == w.touches
    ensures Untouched(w, Run(w, env, m, bundle, steps, false).w)
    decreases |steps|
  {
    hide Pass, Valid, Untouched, Off, GetCr, Started, Stake;
    if steps == [] {
      SameAuditUntouched(w, w);
    } else if steps[0].Restart? {
      OffRunWritesNothing(w, env, Booted(bundle), bundle, steps[1..]);
    } else {
      var out := Pass(w, env, m, false);
      PassSpent(w, env, m);
      RunSpent(out.w, env, out.m, bundle, steps[1..]);
      PassStays(w, env, m);
      OffPassWritesNothing(w, env, m);
      OffRunWritesNothing(out.w, env, out.m, bundle, steps[1..]);
      UntouchedTransitive(w, out.w, Run(out.w, env, out.m, bundle, steps[1..], false).w);
    }
  }

  /** A CR whose passes do nothing but record the pause. */
  predicate Resting(c: CR) {
    IsPaused(c) && !c.deleting && c.status.phase != Empty && !NeedsMigration(c)
  }

  /** The writes that a resting CR can still get. */
  function Unrecorded(c: CR): nat {
    if c.status.paused then 0 else 1
  }

  /** Nothing is written but the status of the resting CR, and that only to record the pause. */
  ghost predicate Rested(w: World, w': World) {
    && w.cr.Some? && w'.cr.Some? && Resting(w'.cr.value) && Off(w'.cr.value)
    && |w'.audit| + Unrecorded(w'.cr.value) <= |w.audit| + Unrecorded(w.cr.value)
  }

  lemma PauseRecorded(w: World, env: Env, c: CR)
    requires Valid(w, env.home) && w.cr == Some(c) && Resting(c)
    requires Pause(w, env, c).w.touches == w.touches
    ensures Rested(w, Pause(w, env, c).w)
  {
    hide StatusWrite, Valid, Begin, ParsesTrue, ObjsEvolve, CrTrace, Copy;
    if !c.status.paused {
      var w1 := Begin(w, env);
      BeginKeeps(w, env);
      CopyOfStored(w, env.home);
      CopyPasses(w, env.home, c, c.(status := PausedStatus(c.status, c.gen)));
      StatusWriteEffect(w, env, c.(status := PausedStatus(c.status, c.gen)));
    }
  }

  lemma StillRested(w: World, w': World)
    requires w.cr.Some? && Resting(w.cr.value) && w'.cr == w.cr && w'.audit == w.audit
    ensures Rested(w, w')
  {
    hide IsPaused;
  }

  lemma RestedTransitive(w: World, w1: World, w2: World)
    requires Rested(w, w1) && Rested(w1, w2)
    ensures Rested(w, w2)
  {
    hide Resting, Off;
  }

  lemma TouchesStay(w: World, w': World)
    requires Evolves(w, w')
    ensures w.touches <= w'.touches && (w.touches == w'.touches ==> w'.cr == w.cr)
  {
  }

  lemma PauseTouches(w: World, env: Env, c: CR)
    requires Valid(w, env.home) && Copy(w, env.home, c)
    ensures w.touches <= Pause(w, env, c).w.touches
  {
    hide StatusWrite, Valid, Started, Stake, PausedStatus;
    StatusSpent(w, env, c, PausedStatus(c.status, c.gen));
  }

  lemma RestingPass(w: World, env: Env, m: Memory)
    requires Valid(w, env.home) && w.cr.Some? && Resting(w.cr.value)
    requires Pass(w, env, m, false).w.touches == w.touches && !TakesMultipleStep(w, env)
    ensures Rested(w, Pass(w, env, m, false).w)
  {
    hide GetCr, ListCrs, Pause, Valid, Evolves, ErrorHandled, ResourceWrite, CleanupPass, Deploy, Rested, Spent,
         IsPaused, SetStatusMultipleCRs;
    var c, out := w.cr.value, Pass(w, env, m, false);
    PassStays(w, env, m);
    ReadEffect(w, env);
    var got := GetCr(w, env);
    TouchesStay(w, got.w);
    if got.res.Err? {
      StillRested(w, got.w);
    } else {
      assert got.res.value == c;
      ListEffect(got.w, env);
      var all := ListCrs(got.w, env);
      TouchesStay(got.w, all.w);
      if all.res.Ok? {
        assert out.w == Pause(all.w, env, c).w;
        CopyEvolves(got.w, all.w, env.home, c);
        PauseTouches(all.w, env, c);
        PauseRecorded(all.w, env, c);
        StillRested(w, all.w);
        RestedTransitive(w, all.w, out.w);
      } else {
        StillRested(w, all.w);
      }
    }
  }

  /** A pause is recorded once: over a run of any length, under any faults and any edits of other objects, a
      paused CR that users leave alone gets at most one write, of its status, and none if the pause is already
      recorded. No operand object is written. */
  lemma {:induction false} PausedRunWritesOnce(w: World, env: Env, m: Memory, bundle: seq<Entry>, steps: seq<Event>)
    requires Valid(w, env.home) && w.cr.Some? && Resting(w.cr.value)
    requires Run(w, env, m, bundle, steps, false).w.touches == w.touches
    requires AllowedRun(Mode(true, false), w, env, m, bundle, steps)
    ensures Rested(w, Run(w, env, m, bundle, steps, false).w)
    ensures |Run(w, env, m, bundle, steps, false).w.audit| <= |w.audit| + if w.cr.value.status.paused then 0 else 1
    decreases |steps|
  {
    hide Pass, Valid, IsPaused, TakesMultipleStep, FailsToInitialize, Started, Stake;
    if steps == [] {
      StillRested(w, w);
    } else if steps[0].Restart? {
      PausedRunWritesOnce(w, env, Booted(bundle), bundle, steps[1..]);
    } else {
      var out := Pass(w, env, m, false);
      PassSpent(w, env, m);
      RunSpent(out.w, env, out.m, bundle, steps[1..]);
      RestingPass(w, env, m);
      PausedRunWritesOnce(out.w, env, out.m, bundle, steps[1..]);
      RestedTransitive(w, out.w, Run(out.w, env, out.m, bundle, steps[1..], false).w);
    }
  }

  /** The first full pass that succeeds after unpausing clears the record of the pause. */
  lemma UnpausedPassClearsRecord(w: World, env: Env, m: Memory)
    requires Valid(w, env.home) && GetCr(w, env).res.Ok? && !TakesMultipleStep(w, env)
    requires var c := GetCr(w, env).res.value;
             !IsPaused(c) && !c.deleting && c.status.phase != Empty && !NeedsMigration(c)
    ensures var out := Pass(w, env, m, false);
            out.verdict == Finished ==> out.w.cr.Some? && !out.w.cr.value.status.paused
  {
    hide GetCr, ListCrs, Deploy, Valid, Evolves, IsPaused, Copy, ErrorHandled, ResourceWrite, CleanupPass;
    ReadEffect(w, env);
    var got := GetCr(w, env);
    ListEffect(got.w, env);
    var all := ListCrs(got.w, env);
    if all.res.Ok? {
      CopyEvolves(got.w, all.w, env.home, got.res.value);
      DeployClearsRecord(all.w, env, ClearedIfNeeded(m, got.res.value.spec), got.res.value);
    }
  }

  lemma DeployClearsRecord(w: World, env: Env, m: Memory, inst: CR)
    requires Valid(w, env.home) && Copy(w, env.home, inst)
    ensures var out := Deploy(w, env, m, inst, false);
            out.verdict == Finished ==> out.w.cr.Some? && !out.w.cr.value.status.paused
  {
    hide StatusWrite, ReconcileOperands, Copy, Valid, Evolves, SetUnlessEqual, Troubled, Summary, SetThree, Begin,
         SameMeta;
    var s := PreStatus(env.cfg, inst.status, inst.gen);
    CopyPasses(w, env.home, inst, inst.(status := s));
    StatusWriteEffect(w, env, inst.(status := s));
    var pre := StatusWrite(w, env, inst.(status := s));
    OperandsKeep(pre.w, env, m, pre.inst, false);
    var ops := ReconcileOperands(pre.w, env, m, pre.inst, false);
    CopyEvolves(pre.w, ops.w, env.home, pre.inst);
    var done := Aggregated(env.cfg, pre.inst.status, pre.inst.gen, ops.results);
    CopyPasses(ops.w, env.home, pre.inst, pre.inst.(status := done));
    StatusWriteEffect(ops.w, env, pre.inst.(status := done));
  }
}

/** What one pass leaves in the CR, case by case, when nothing interferes; and what it does when a call fails. */
module Outcomes {
  import opened Kube
  import opened ApiServer
  import opened Cache
  import opened Ownership
  import opened Resource
  import opened Operands
  import opened StatusReport
  import opened Controller
  import opened Tracking
  import opened CacheRefinement
  import opened Convergence
  import opened Cleaning
  import opened Deletion
  import opened Vanishing
  import opened CrdGate

  // ---------- how a calm pass begins ----------

  /** Nobody else writes, no call fails, and this is the CR. */
  ghost predicate Alone(w: World, env: Env, c: CR) {
    Valid(w, env.home) && Calm(env, w.calls) && w.cr == Some(c)
  }

  lemma AloneReads(w: World, env: Env, c: CR)
    requires Alone(w, env, c)
    ensures var read := w.(calls := w.calls + 1);
            && GetCr(w, env) == Reply(read, Ok(c)) && Alone(read, env, c)
            && ListCrs(w, env) == Reply(read, Ok((Some(c), w.others + 1)))
  {
    CalmBegin(w, env);
    CalmIsQuiet(env, w.calls, w.calls + 1, 0);
    LaterValid(w, env);
    hide Begin;
  }

  lemma AloneWrites(w: World, env: Env, c: CR, s: Status)
    requires Alone(w, env, c)
    ensures var out := StatusWrite(w, env, c.(status := s));
            && out.err.None? && Alone(out.w, env, out.inst) && out.inst.status == s && SameMeta(out.inst, c)
            && out.inst.finalizers == c.finalizers && out.w.objs == w.objs && out.w.others == w.others
  {
    hide Valid, Calm, StatusWrite, Kept;
    CopyOfStored(w, env.home);
    CalmStatusWrite(w, env, c, s);
    StatusWriteKeeps(w, env, c, s);
    KeptValid(w, StatusWrite(w, env, c.(status := s)).w, env.home);
    CalmIsQuiet(env, w.calls, w.calls + 1, 0);
  }

  /** The CR says that it is paused, in one of the words for true. */
  predicate SaysPaused(c: CR) {
    && "kubevirt.io/operator.paused" in c.annotations
    && var word := c.annotations["kubevirt.io/operator.paused"];
       word == "1" || word == "t" || word == "T" || word == "true" || word == "True" || word == "TRUE"
  }

  lemma PausedExactly(c: CR)
    ensures IsPaused(c) <==> SaysPaused(c)
  {
  }

  /** The CR is being served: it is initialized, has no old finalizer, and is not being deleted. */
  predicate BeingServed(c: CR) {
    !c.deleting && c.status.phase != Empty && "finalize.tekton-tasks.kubevirt.io" !in c.finalizers
  }

  /** What a pass for this spec makes of the memory before anything else: another spec empties the cache. */
  predicate RemembersSpec(m: Memory, spec: Spec, m': Memory) {
    if m.lastSpec == spec then m' == m else m' == Memory(map[], spec, m.entries)
  }

  lemma ClearedRemembers(m: Memory, spec: Spec)
    ensures RemembersSpec(m, spec, ClearedIfNeeded(m, spec))
  {
  }

  lemma ServedPass(w: World, env: Env, m: Memory, c: CR)
    requires Alone(w, env, c) && BeingServed(c)
    ensures var m1 := ClearedIfNeeded(m, c.spec);
            && Pass(w, env, m, false) == ServeLive(w.(calls := w.calls + 1), env, m1, c, false)
            && Alone(w.(calls := w.calls + 1), env, c) && RemembersSpec(m, c.spec, m1)
  {
    hide ServeLive, Alone;
    AloneReads(w, env, c);
    ClearedRemembers(m, c.spec);
  }

  // ---------- a pass for a CR that is being served ----------

  /** The CR, but for its status. */
  predicate OnlyStatus(c: CR, c': CR) {
    SameMeta(c', c) && c'.finalizers == c.finalizers
  }

  /** The pass has finished, touched no object, and left a CR of which only the status may be new. */
  ghost predicate Settles(w: World, c: CR, out: PassOut) {
    && out.verdict == Finished && out.results == [] && out.w.objs == w.objs
    && out.w.cr.Some? && OnlyStatus(c, out.w.cr.value)
  }

  /** A pause is recorded: the pass for a single paused CR finishes, and afterwards the status says so, and says of
      which generation if it did not say so before; nothing else in it changes. */
  lemma PauseIsRecorded(w: World, env: Env, m: Memory, c: CR)
    requires Alone(w, env, c) && BeingServed(c) && SaysPaused(c) && w.others == 0
    ensures var out := Pass(w, env, m, false);
            && Settles(w, c, out) && RemembersSpec(m, c.spec, out.m)
            && var s := out.w.cr.value.status;
               s == if c.status.paused then c.status else c.status.(paused := true, observedGeneration := c.gen)
  {
    hide StatusWrite, Alone, SaysPaused, IsPaused, Deploy;
    PausedExactly(c);
    ServedPass(w, env, m, c);
    var read := w.(calls := w.calls + 1);
    AloneReads(read, env, c);
    AloneWrites(w.(calls := w.calls + 2), env, c, PausedStatus(c.status, c.gen));
    AloneIs(w, env, c);
  }

  lemma AloneIs(w: World, env: Env, c: CR)
    requires Alone(w, env, c)
    ensures w.cr == Some(c)
    ensures forall w', c' :: Alone(w', env, c') ==> w'.cr == Some(c')
  {
  }

  /** With several CRs the pass finishes, paused or not: it says of its own CR that nothing is available or
      progressing and that it is degraded, and leaves everything else alone. */
  lemma MultipleIsReported(w: World, env: Env, m: Memory, c: CR)
    requires Alone(w, env, c) && BeingServed(c) && w.others > 0
    ensures var out := Pass(w, env, m, false);
            && Settles(w, c, out) && RemembersSpec(m, c.spec, out.m)
            && var s := out.w.cr.value.status;
               Reads(s, False, False, True) && s == c.status.(conditions := s.conditions)
  {
    hide StatusWrite, Alone, IsPaused, Deploy, SetThree, Reads;
    ServedPass(w, env, m, c);
    AloneReads(w.(calls := w.calls + 1), env, c);
    AloneWrites(w.(calls := w.calls + 2), env, c, MultipleStatus(c.status));
    AloneIs(w, env, c);
    ConditionsWritten(Config("", "", "", "", "", "", "", "", "", "", ""), c.status, c.gen, Conflict);
  }

  /** A status after a full pass: of this generation and this version of the operator, not paused. */
  predicate FullStatus(cfg: Config, c: CR, s: Status) {
    && !s.paused && s.observedGeneration == c.gen
    && s.operatorVersion == cfg.operatorVersion && s.targetVersion == cfg.operatorVersion
    && (s.phase == Deployed || s.phase == Deploying)
    && s.observedVersion == (if s.phase == Deployed then cfg.operatorVersion else c.status.observedVersion)
    && (s.phase == Deployed ==> Reads(s, True, False, False))
  }

  /** With the gate off the pass finishes, touches no object, and says Deployed all the same. */
  lemma GateOffIsDeployed(w: World, env: Env, m: Memory, c: CR)
    requires Alone(w, env, c) && BeingServed(c) && !SaysPaused(c) && w.others == 0 && !c.spec.deploy
    ensures var out := Pass(w, env, m, false);
            && Settles(w, c, out) && RemembersSpec(m, c.spec, out.m)
            && out.w.cr.value.status.phase == Deployed && FullStatus(env.cfg, c, out.w.cr.value.status)
  {
    hide StatusWrite, Alone, SaysPaused, IsPaused, SetThree, SetUnlessEqual, Summary, Reads;
    PausedExactly(c);
    ServedPass(w, env, m, c);
    AloneReads(w.(calls := w.calls + 1), env, c);
    var w2, s := w.(calls := w.calls + 2), PreStatus(env.cfg, c.status, c.gen);
    AloneWrites(w2, env, c, s);
    var pre := StatusWrite(w2, env, c.(status := s));
    AloneWrites(pre.w, env, pre.inst, Aggregated(env.cfg, s, c.gen, []));
    AggregatedReads(env.cfg, s, c.gen, []);
    AloneIs(w, env, c);
  }

  lemma AggregatedReads(cfg: Config, s: Status, gen: nat, results: seq<ReconcileResult>)
    ensures var t := Aggregated(cfg, s, gen, results);
            && (t.phase == Deployed <==> forall r <- results :: IsSuccess(r))
            && (t.phase == Deployed ==> Reads(t, True, False, False))
            && (t.phase == Deployed || t.phase == Deploying)
  {
    AggregationExact(cfg, s, gen, results);
    var t := Aggregated(cfg, s, gen, results);
    hide Troubled, Summary, SetThree, UniqueTypes, FindCondition;
    var na, pr, de := Troubled(Unavailability, results), Troubled(Progress, results), Troubled(Degradation, results);
    SummaryReads(Unavailability, results);
    SummaryReads(Progress, results);
    SummaryReads(Degradation, results);
    SetThreeFinds(s.conditions, Summary(Unavailability, na), Summary(Progress, pr), Summary(Degradation, de));
    assert t.phase == Deployed ==> |na| == 0 && |pr| == 0 && |de| == 0;
  }

  /** A full pass that finishes says so of this generation and version, and says Deployed if and only if every
      resource was a success. */
  lemma FullPassReports(w: World, env: Env, m: Memory, c: CR)
    requires MemoryOk(w, env, m) && Alone(w, env, c) && BeingServed(c) && !SaysPaused(c)
    requires w.others == 0 && c.spec.deploy
    ensures var out := Pass(w, env, m, false);
            out.verdict == Finished ==>
              && out.w.cr.Some? && OnlyStatus(c, out.w.cr.value) && FullStatus(env.cfg, c, out.w.cr.value.status)
              && (out.w.cr.value.status.phase == Deployed <==> forall r <- out.results :: IsSuccess(r))
  {
    hide StatusWrite, Alone, SaysPaused, IsPaused, SetThree, SetUnlessEqual, Summary, Reads, Troubled, ReconcileAll,
         MemoryOk, Evolves, Valid, IsSuccess;
    PausedExactly(c);
    ServedPass(w, env, m, c);
    AloneReads(w.(calls := w.calls + 1), env, c);
    var m1, w2, s := ClearedIfNeeded(m, c.spec), w.(calls := w.calls + 2), PreStatus(env.cfg, c.status, c.gen);
    AloneWrites(w2, env, c, s);
    var pre := StatusWrite(w2, env, c.(status := s));
    OperandsCalm(pre.w, env, m1, pre.inst);
    var ops := ReconcileAll(pre.w, env, m1.versions, pre.inst, m1.entries, false);
    AloneWrites(ops.w, env, pre.inst, Aggregated(env.cfg, s, c.gen, ops.results));
    AggregatedReads(env.cfg, s, c.gen, ops.results);
    AloneIs(w, env, c);
  }

  /** Reconciling leaves the CR alone. */
  lemma OperandsCalm(w: World, env: Env, m: Memory, c: CR)
    requires Alone(w, env, c)
    ensures Alone(ReconcileAll(w, env, m.versions, c, m.entries, false).w, env, c)
  {
    hide ReconcileAll, Valid, ObjsEvolve, CrTrace, Stake, Calm;
    ListKeepsAll(w, env, m.versions, c, m.entries, false);
    var out := ReconcileAll(w, env, m.versions, c, m.entries, false);
    assert Valid(w, env.home);
    CalmIsQuiet(env, w.calls, out.w.calls, out.w.calls);
    CalmIsQuiet(env, w.calls, w.calls, out.w.calls);
    ListTouches(w, env, m.versions, c, m.entries);
  }

  lemma {:induction false} ListTouches(w: World, env: Env, c: Versions, inst: CR, es: seq<Entry>)
    requires Valid(w, env.home) && Calm(env, w.calls)
    ensures ReconcileAll(w, env, c, inst, es, false).w.cr == w.cr
    decreases |es|
  {
    hide ReconcileEntry, Valid, Calm, Evolves;
    if es != [] {
      var first := ReconcileEntry(w, env, c, inst, es[0], false);
      EntryKeeps(w, env, c, inst, es[0], false);
      CalmIsQuiet(env, w.calls, w.calls, first.w.calls);
      CalmIsQuiet(env, w.calls, first.w.calls, 0);
      EntryTouches(w, env, c, inst, es[0]);
      ListTouches(first.w, env, first.versions, inst, es[1..]);
    }
  }

  lemma EntryTouches(w: World, env: Env, c: Versions, inst: CR, e: Entry)
    requires Calm(env, w.calls)
    ensures ReconcileEntry(w, env, c, inst, e, false).w.cr == w.cr
  {
    hide Prepared, MarkedFor, Remember, CreateOrUpdate;
    var p := Prepared(e.rule, env.cfg, inst.nn.ns, inst.spec, e.obj);
    if p.Some? {
      var r := RecipeOf(e.rule, false);
      EngineTouches(w, env, c, r, MarkedFor(inst, r, p.value).obj);
    }
  }

  lemma EngineTouches(w: World, env: Env, c: Versions, r: Recipe, x: Obj)
    requires Calm(env, w.calls)
    ensures CreateOrUpdate(w, env, c, r, x).w.cr == w.cr
  {
    hide Mutated, Hit, Blank, GetObj, CreateObj, UpdateObj, DeleteObject;
    var got := GetObj(w, env, KeyOf(x));
    CallsTouchNothing(w, env, KeyOf(x), x);
    CalmIsQuiet(env, w.calls, got.w.calls, 0);
    var found := if got.res.Err? then Blank(x) else got.res.value;
    CallsTouchNothing(got.w, env, KeyOf(Mutated(r, env.cfg, x, found, Hit(c, found))),
                      Mutated(r, env.cfg, x, found, Hit(c, found)));
  }

  lemma CallsTouchNothing(w: World, env: Env, k: Key, o: Obj)
    requires Calm(env, w.calls)
    ensures GetObj(w, env, k).w.cr == CreateObj(w, env, o).w.cr == UpdateObj(w, env, o).w.cr == w.cr
    ensures DeleteObject(w, env, k).w.cr == w.cr && GetObj(w, env, k).w.calls == w.calls + 1
  {
    CalmBegin(w, env);
    hide Begin;
  }

  // ---------- the other passes ----------

  /** What the two writes of the CR leave: the new finalizers, and a status that says Deploying of this
      generation. */
  lemma AloneResourceWrite(w: World, env: Env, c: CR, fs: seq<string>)
    requires Alone(w, env, c) && (c.deleting ==> fs != [])
    ensures var out := ResourceWrite(w, env, c.(finalizers := fs));
            && out.err.None? && out.w.cr == Some(out.inst) && SameMeta(out.inst, c) && out.inst.finalizers == fs
            && out.inst.status == c.status.(phase := Deploying, observedGeneration := c.gen) && out.w.objs == w.objs
  {
    hide MetaWrite, StatusWrite, Valid, Calm, Copy, Kept;
    CopyOfStored(w, env.home);
    MetaWriteKeeps(w, env, c, fs);
    CalmMetaWrite(w, env, c, fs);
    var meta := MetaWrite(w, env, c.(finalizers := fs));
    KeptValid(w, meta.w, env.home);
    CalmIsQuiet(env, w.calls, meta.w.calls, 0);
    MetaKeepsStatus(w, env, c, fs);
    CalmStatusWrite(meta.w, env, meta.inst, DeployingStatus(meta.inst.status, meta.inst.gen));
  }

  lemma MetaKeepsStatus(w: World, env: Env, c: CR, fs: seq<string>)
    requires Calm(env, w.calls) && w.cr == Some(c)
    ensures MetaWrite(w, env, c.(finalizers := fs)).inst.status == c.status
  {
    CalmBegin(w, env);
    hide Begin;
  }

  /** The finalizers that a CR gets. */
  ghost predicate Guarded(before: seq<string>, after: seq<string>) {
    && "tekton-tasks.kubevirt.io/finalizer" in after && "finalize.tekton-tasks.kubevirt.io" !in after
    && forall f :: f != "tekton-tasks.kubevirt.io/finalizer" && f != "finalize.tekton-tasks.kubevirt.io" ==>
                     (f in after <==> f in before)
  }

  /** Initializing: the CR gets the operator's finalizer and its status says Deploying of this generation; nothing
      else about it changes, and no object. */
  lemma InitializationIsRecorded(w: World, env: Env, m: Memory, c: CR)
    requires Alone(w, env, c) && !c.deleting && c.status.phase == Empty
    ensures var out := Pass(w, env, m, false);
            && out.verdict == Finished && out.results == [] && out.w.objs == w.objs
            && RemembersSpec(m, c.spec, out.m) && out.w.cr.Some?
            && var c' := out.w.cr.value;
               && SameMeta(c', c) && c'.status == c.status.(phase := Deploying, observedGeneration := c.gen)
               && "tekton-tasks.kubevirt.io/finalizer" in c'.finalizers
               && forall f :: f != "tekton-tasks.kubevirt.io/finalizer" ==> (f in c'.finalizers <==> f in c.finalizers)
  {
    hide ResourceWrite, Alone;
    AloneReads(w, env, c);
    ClearedRemembers(m, c.spec);
    var next := AddFinalizer(c, FINALIZER);
    assert next == c.(finalizers := next.finalizers);
    AloneResourceWrite(w.(calls := w.calls + 1), env, c, next.finalizers);
  }

  /** Migrating: the old finalizer is replaced by the new one, all others stay; for a CR that is being deleted too. */
  lemma MigrationIsRecorded(w: World, env: Env, m: Memory, c: CR)
    requires Alone(w, env, c) && (c.deleting || c.status.phase != Empty)
    requires "finalize.tekton-tasks.kubevirt.io" in c.finalizers
    ensures var out := Pass(w, env, m, false);
            && out.verdict == Finished && out.results == [] && out.w.objs == w.objs
            && RemembersSpec(m, c.spec, out.m) && out.w.cr.Some?
            && var c' := out.w.cr.value;
               && SameMeta(c', c) && c'.status == c.status.(phase := Deploying, observedGeneration := c.gen)
               && Guarded(c.finalizers, c'.finalizers)
  {
    hide ResourceWrite, Alone;
    AloneReads(w, env, c);
    ClearedRemembers(m, c.spec);
    assert |FINALIZER| != |OLD_FINALIZER|;
    var next := AddFinalizer(RemoveFinalizer(c, OLD_FINALIZER), FINALIZER);
    assert next == c.(finalizers := next.finalizers) && FINALIZER in next.finalizers;
    AloneResourceWrite(w.(calls := w.calls + 1), env, c, next.finalizers);
  }

  /** Deleting: as long as the CR is held its status says Deleting, not available, progressing and degraded; when
      the operator has let go of it and somebody else holds it, Deleted. The cache is empty afterwards. */
  lemma DeletionIsRecorded(w: World, env: Env, m: Memory, c: CR)
    requires Alone(w, env, c) && RefsAtHome(w, env.home) && c.nn.name != ""
    requires c.deleting && "finalize.tekton-tasks.kubevirt.io" !in c.finalizers
    ensures var out := Pass(w, env, m, false);
            && out.verdict == Finished && out.m == Memory(map[], EMPTY_SPEC, m.entries)
            && (out.w.cr.Some? ==>
                  && SameMeta(out.w.cr.value, c) && out.w.cr.value.status.observedGeneration == c.gen
                  && out.w.cr.value.status.phase
                     == (if FINALIZER in out.w.cr.value.finalizers then Deleting else Deleted)
                  && (FINALIZER in c.finalizers ==> Reads(out.w.cr.value.status, False, True, True))
                  && (FINALIZER in out.w.cr.value.finalizers ==> out.w.cr.value.finalizers == c.finalizers)
                  && forall f :: f != FINALIZER ==> (f in out.w.cr.value.finalizers <==> f in c.finalizers))
  {
    hide CleanupPass, Alone, Reads;
    AloneReads(w, env, c);
    var read := w.(calls := w.calls + 1);
    assert RefsAtHome(read, env.home) by { RefsSame(w, read, env.home); }
    CleanupIsRecorded(read, env, c, m.entries);
  }

  lemma CleanupIsRecorded(w: World, env: Env, c: CR, es: seq<Entry>)
    requires Alone(w, env, c) && RefsAtHome(w, env.home) && c.nn.name != ""
    requires c.deleting && OLD_FINALIZER !in c.finalizers
    ensures var out := CleanupPass(w, env, c, es);
            && out.err.None?
            && (out.w.cr.Some? ==>
                  && SameMeta(out.w.cr.value, c) && out.w.cr.value.status.observedGeneration == c.gen
                  && out.w.cr.value.status.phase
                     == (if FINALIZER in out.w.cr.value.finalizers then Deleting else Deleted)
                  && (FINALIZER in c.finalizers ==> Reads(out.w.cr.value.status, False, True, True))
                  && (FINALIZER in out.w.cr.value.finalizers ==> out.w.cr.value.finalizers == c.finalizers)
                  && forall f :: f != FINALIZER ==> (f in out.w.cr.value.finalizers <==> f in c.finalizers))
  {
    hide Alone, StatusWrite, Teardown, Release, Reads, Unhealthy, RefsAtHome;
    AloneIs(w, env, c);
    var s, done := DeletingStatus(c.status, c.gen), DeletedStatus(c.status, c.gen);
    AloneWrites(w, env, c, s);
    AloneWrites(w, env, c, done);
    var mark := StatusWrite(w, env, c.(status := s));
    assert Reads(s, False, True, True) by {
      ConditionsWritten(Config("", "", "", "", "", "", "", "", "", "", ""), c.status, c.gen, Conflict);
    }
    if HasOurs(c) {
      CleanupIsRemoval(w, env, c, es);
      RefsSame(w, mark.w, env.home);
      AloneHome(mark.w, env, mark.inst);
      TeardownCalmly(mark.w, env, mark.inst, es);
      var down := Teardown(mark.w, env, mark.inst, es);
      CalmIsQuiet(env, mark.w.calls, down.w.calls, 0);
      ReleaseIsRecorded(down.w, env, mark.inst);
      SameReads(s, mark.inst.status.(phase := Deleted, observedGeneration := c.gen));
    }
  }

  lemma SameReads(s: Status, t: Status)
    requires t.conditions == s.conditions
    ensures Reads(t, False, True, True) == Reads(s, False, True, True)
  {
  }

  lemma AloneHome(w: World, env: Env, c: CR)
    requires Alone(w, env, c)
    ensures Valid(w, env.home) && Calm(env, w.calls) && c.nn == env.home
  {
  }

  lemma ReleaseIsRecorded(w: World, env: Env, c: CR)
    requires Calm(env, w.calls) && w.cr == Some(c) && c.deleting && HasOurs(c)
    ensures var out := Release(w, env, c);
            && out.err.None?
            && (out.w.cr.Some? ==>
                  && SameMeta(out.w.cr.value, c)
                  && out.w.cr.value.status == c.status.(phase := Deleted, observedGeneration := c.gen)
                  && FINALIZER !in out.w.cr.value.finalizers
                  && forall f :: f != FINALIZER && f != OLD_FINALIZER ==>
                                   (f in out.w.cr.value.finalizers <==> f in c.finalizers))
            && (out.w.cr.Some? ==> OLD_FINALIZER !in out.w.cr.value.finalizers)
  {
    CalmBegin(w, env);
    var freed := MetaWrite(w, env, Released(c));
    assert freed.w.cr.None? || freed.w.cr == Some(freed.inst);
    CalmIsQuiet(env, w.calls, freed.w.calls, 0);
    CalmBegin(freed.w, env);
    hide Begin, HasOurs;
  }

  /** Without a CR there is nothing to do; when the CR cannot be read, that is the verdict. Either way nothing is
      written, and the memory stays. */
  lemma NothingWithoutCr(w: World, env: Env, m: Memory)
    requires GetCr(w, env).res.Err?
    ensures var out := Pass(w, env, m, false);
            && out.w == Begin(w, env) && out.m == m && out.results == []
            && out.verdict == (if env.turn(w.calls).fault.Served? then Finished
                               else Failed(env.turn(w.calls).fault.error))
  {
    hide Serve;
  }

  // ---------- when a call fails ----------

  /** A status write that users leave alone: it lands unless it is rejected, and fails unless it is served. */
  lemma QuietStatusWrite(w: World, env: Env, c: CR, s: Status)
    requires w.cr == Some(c) && env.turn(w.calls).edits == []
    ensures var out, fault := StatusWrite(w, env, c.(status := s)), env.turn(w.calls).fault;
            && out.err == (if fault.Served? then None else Some(fault.error))
            && out.w.objs == w.objs && out.w.calls == w.calls + 1 && out.w.cr.Some? && OnlyStatus(c, out.w.cr.value)
            && (if fault.Rejected? then out.w.cr == w.cr else out.w.cr.value.status == s)
  {
    assert Begin(w, env) == w.(calls := w.calls + 1);
    hide Begin;
  }

  /** How an error ends a pass: a conflict is tried again and says nothing; any other one is the verdict, and is
      recorded in the status, unless that write fails as well. */
  lemma ErrorIsRecorded(w: World, env: Env, c: CR, e: Error)
    requires w.cr == Some(c) && env.turn(w.calls).edits == []
    ensures var end := ErrorHandled(w, env, c, Some(e));
            && (e == Conflict ==> end == End(w, Requeue))
            && (e != Conflict ==>
                  && end.verdict == Failed(e) && end.w.cr.Some? && end.w.objs == w.objs
                  && OnlyStatus(c, end.w.cr.value)
                  && if env.turn(w.calls).fault.Rejected? then end.w.cr == w.cr
                     else && end.w.cr.value.status.phase == Deploying
                          && Reads(end.w.cr.value.status, False, True, True)
                          && end.w.cr.value.status
                             == c.status.(phase := Deploying, conditions := end.w.cr.value.status.conditions))
  {
    hide StatusWrite, SetThree, Reads, ErrorText, OnlyStatus;
    ConditionsWritten(Config("", "", "", "", "", "", "", "", "", "", ""), c.status, c.gen, e);
    QuietStatusWrite(w, env, c, ErrorStatus(c.status, e));
  }

  /** An object that cannot be read is neither created nor changed. */
  lemma UnreadIsUntouched(w: World, env: Env, c: Versions, r: Recipe, x: Obj)
    requires !env.turn(w.calls).fault.Served?
    ensures var out := CreateOrUpdate(w, env, c, r, x);
            out.w == Begin(w, env) && (out.res == Err(env.turn(w.calls).fault.error))
  {
    FaultIsNoMiss(env.turn(w.calls).fault);
    hide Begin, Mutated;
  }

  /** The verdict on a call that fails before the CR is served by its operands. */
  function Excused(e: Error): Verdict {
    if e == Conflict then Requeue else Failed(e)
  }

  /** A failed call decides the verdict of a pass for a CR that is being served: if the CRs cannot be listed, or the
      one status write with several CRs or for a pause fails, that is the verdict, be it a conflict or not; if the
      first status write of a full pass fails, a conflict is tried again. Either way no object is touched. */
  lemma FailedCallsDecide(w: World, env: Env, m: Memory, c: CR)
    requires Valid(w, env.home) && w.cr == Some(c) && BeingServed(c) && Quiet(env, w.calls, w.calls + 4)
    requires env.turn(w.calls).fault.Served?
    ensures var out, list, write := Pass(w, env, m, false), env.turn(w.calls + 1).fault, env.turn(w.calls + 2).fault;
            if !list.Served? then
              out.verdict == Failed(list.error) && out.w == w.(calls := w.calls + 2) && RemembersSpec(m, c.spec, out.m)
            else if write.Served? then true
            else if w.others > 0 || (SaysPaused(c) && !c.status.paused) then
              out.verdict == Failed(write.error) && out.w.objs == w.objs && RemembersSpec(m, c.spec, out.m)
            else if SaysPaused(c) then out.verdict == Finished && out.w == w.(calls := w.calls + 2)
            else && out.verdict == Excused(write.error) && out.results == [] && out.w.objs == w.objs
                 && RemembersSpec(m, c.spec, out.m)
  {
    hide StatusWrite, ErrorHandled, SaysPaused, IsPaused, SetThree, PreStatus, ReconcileOperands, Aggregated, Begin,
         OnlyStatus;
    PausedExactly(c);
    ClearedRemembers(m, c.spec);
    var w1, w2 := w.(calls := w.calls + 1), w.(calls := w.calls + 2);
    QuietBegin(w, env, w.calls + 4);
    QuietBegin(w1, env, w.calls + 4);
    QuietBegin(w2, env, w.calls + 4);
    QuietStatusWrite(w2, env, c, PreStatus(env.cfg, c.status, c.gen));
    QuietStatusWrite(w2, env, c, MultipleStatus(c.status));
    QuietStatusWrite(w2, env, c, PausedStatus(c.status, c.gen));
    var pre := StatusWrite(w2, env, c.(status := PreStatus(env.cfg, c.status, c.gen)));
    if pre.err.Some? {
      QuietHandled(pre.w, env, pre.inst, pre.err.value);
    }
    assert GetCr(w, env) == Reply(w1, Ok(c));
  }

  /** Handling an error touches no object and makes it the verdict. */
  lemma QuietHandled(w: World, env: Env, c: CR, e: Error)
    requires env.turn(w.calls).edits == []
    ensures var end := ErrorHandled(w, env, c, Some(e)); end.verdict == Excused(e) && end.w.objs == w.objs
  {
    hide SetThree, ErrorText;
    assert Begin(w, env) == w.(calls := w.calls + 1);
    hide Begin;
  }

  /** The same while initializing and migrating: a conflict is tried again. */
  lemma FailedFinalizerWriteDecides(w: World, env: Env, m: Memory, c: CR)
    requires w.cr == Some(c) && Quiet(env, w.calls, w.calls + 2) && env.turn(w.calls).fault.Served?
    requires (!c.deleting && c.status.phase == Empty) || "finalize.tekton-tasks.kubevirt.io" in c.finalizers
    requires !env.turn(w.calls + 1).fault.Served?
    ensures var out := Pass(w, env, m, false);
            && out.verdict == Excused(env.turn(w.calls + 1).fault.error) && out.results == []
            && RemembersSpec(m, c.spec, out.m)
  {
    hide Begin, StatusWrite, Unhealthy, CrReplaced, Without, DeployingStatus;
    ClearedRemembers(m, c.spec);
    var w1 := w.(calls := w.calls + 1);
    QuietBegin(w, env, w.calls + 2);
    QuietBegin(w1, env, w.calls + 2);
    assert GetCr(w, env) == Reply(w1, Ok(c));
  }

  /** And while cleaning up: any error of the first status write is the verdict, and the cache stays. */
  lemma FailedCleanupDecides(w: World, env: Env, m: Memory, c: CR)
    requires w.cr == Some(c) && Quiet(env, w.calls, w.calls + 2) && env.turn(w.calls).fault.Served?
    requires c.deleting && FINALIZER in c.finalizers && OLD_FINALIZER !in c.finalizers
    requires !env.turn(w.calls + 1).fault.Served?
    ensures var out := Pass(w, env, m, false);
            && out.verdict == Failed(env.turn(w.calls + 1).fault.error) && out.w.objs == w.objs
            && RemembersSpec(m, c.spec, out.m)
  {
    hide Begin, Unhealthy, Teardown, Released, MarkDeleted;
    ClearedRemembers(m, c.spec);
    var w1 := w.(calls := w.calls + 1);
    QuietBegin(w, env, w.calls + 2);
    QuietBegin(w1, env, w.calls + 2);
    assert GetCr(w, env) == Reply(w1, Ok(c));
  }

  /** Whoever writes what meanwhile, a conflict never fails a pass that initializes, migrates or serves the CR: it is
      tried again. */
  lemma ConflictsAreRetried(w: World, env: Env, m: Memory)
    requires GetCr(w, env).res.Ok?
    requires var got := GetCr(w, env);
             var c := got.res.value;
             && (c.deleting ==> "finalize.tekton-tasks.kubevirt.io" in c.finalizers)
             && (BeingServed(c) ==>
                   && !SaysPaused(c) && ListCrs(got.w, env).res.Ok? && ListCrs(got.w, env).res.value.1 <= 1)
    ensures Pass(w, env, m, false).verdict != Failed(Conflict)
  {
    hide GetCr, ListCrs, StatusWrite, ResourceWrite, SaysPaused, IsPaused, ReconcileOperands, PreStatus, Aggregated,
         Without, ErrorStatus;
    PausedExactly(GetCr(w, env).res.value);
  }

  /** And the last status write of a full pass is judged like the first one. */
  lemma FailedLastWriteDecides(w: World, env: Env, m: Memory, c: CR)
    requires w.cr == Some(c) && BeingServed(c) && !SaysPaused(c) && w.others == 0 && !c.spec.deploy
    requires Quiet(env, w.calls, w.calls + 5) && forall n | w.calls <= n < w.calls + 3 :: env.turn(n).fault.Served?
    ensures var out, fault := Pass(w, env, m, false), env.turn(w.calls + 3).fault;
            out.verdict == (if fault.Served? then Finished else Excused(fault.error))
  {
    hide StatusWrite, ErrorHandled, SaysPaused, IsPaused, PreStatus, Aggregated, Begin;
    PausedExactly(c);
    var w1, w2, s := w.(calls := w.calls + 1), w.(calls := w.calls + 2), PreStatus(env.cfg, c.status, c.gen);
    QuietBegin(w, env, w.calls + 5);
    QuietBegin(w1, env, w.calls + 5);
    QuietStatusWrite(w2, env, c, s);
    var pre := StatusWrite(w2, env, c.(status := s));
    ServedWriteReturns(w2, env, c, s);
    var done := Aggregated(env.cfg, pre.inst.status, pre.inst.gen, []);
    QuietStatusWrite(pre.w, env, pre.inst, done);
    var post := StatusWrite(pre.w, env, pre.inst.(status := done));
    if post.err.Some? {
      QuietHandled(post.w, env, post.inst, post.err.value);
    }
    NoErrorHandled(post.w, env, post.inst);
  }

  lemma ServedWriteReturns(w: World, env: Env, c: CR, s: Status)
    requires w.cr == Some(c) && env.turn(w.calls).edits == [] && env.turn(w.calls).fault.Served?
    ensures var out := StatusWrite(w, env, c.(status := s)); out.w.cr == Some(out.inst)
  {
    assert Begin(w, env) == w.(calls := w.calls + 1);
    hide Begin;
  }

  lemma NoErrorHandled(w: World, env: Env, c: CR)
    ensures ErrorHandled(w, env, c, None) == End(w, Finished)
  {
  }

  /** What the engine reports is what it did: nothing but a read if it says so, and otherwise one write of the kind
      that it says; of an update nothing may be left to do. */
  lemma EngineReportsExactly(w: World, env: Env, c: Versions, r: Recipe, x: Obj)
    requires Valid(w, env.home)
    ensures var out, k := CreateOrUpdate(w, env, c, r, x), KeyOf(x);
            out.res.Ok? ==>
              match out.res.value
              case ResultNone => out.w == Begin(w, env)
              case ResultCreated => Wrote(w, out.w) && Last(out.w).ObjCreated? && Last(out.w).key == k
              case ResultUpdated => out.w.calls == w.calls + 2
                                    && (Wrote(w, out.w) ==> Last(out.w).ObjUpdated? && Last(out.w).key == k)
              case ResultDeleted => out.w.calls == w.calls + 2
                                    && (Wrote(w, out.w) ==> Last(out.w).ObjDeleted? && Last(out.w).key == k)
  {
    hide Hit, Valid, Mutated, Blank, GetObj, CreateObj, UpdateObj, DeleteObject, Wrote, Last;
    var k, got := KeyOf(x), GetObj(w, env, KeyOf(x));
    GetKeeps(w, env, k);
    ReadKey(w, env, k);
    assert KeyOf(Blank(x)) == k by { BlankIsAt(x); }
    var found := if got.res.Err? then Blank(x) else got.res.value;
    var next := Mutated(r, env.cfg, x, found, Hit(c, found));
    MutationKeepsKey(r, env.cfg, x, found, Hit(c, found));
    CallReports(w, env, x);
    CallReports(got.w, env, next);
    SameLog(w, got.w, CreateOrUpdate(w, env, c, r, x).w);
  }

  lemma BlankIsAt(x: Obj)
    ensures KeyOf(Blank(x)) == KeyOf(x)
  {
  }

  lemma SameLog(w: World, w1: World, w2: World)
    requires w1.audit == w.audit
    ensures Wrote(w, w2) == Wrote(w1, w2)
  {
  }

  lemma CallReports(w: World, env: Env, o: Obj)
    requires Valid(w, env.home)
    ensures GetObj(w, env, KeyOf(o)).w == Begin(w, env) && Begin(w, env).calls == w.calls + 1
    ensures Begin(w, env).audit == w.audit
    ensures var r := CreateObj(w, env, o);
            r.res.Ok? ==> Wrote(w, r.w) && Last(r.w).ObjCreated? && Last(r.w).key == KeyOf(o)
    ensures var r := UpdateObj(w, env, o);
            && r.w.calls == w.calls + 1
            && (Wrote(w, r.w) ==> Last(r.w).ObjUpdated? && Last(r.w).key == KeyOf(o))
    ensures var r := DeleteObject(w, env, KeyOf(o));
            && r.w.calls == w.calls + 1
            && (Wrote(w, r.w) ==> Last(r.w).ObjDeleted? && Last(r.w).key == KeyOf(o))
  {
    hide Valid, Evolves;
    BeginKeeps(w, env);
    BeginOnly(w, env);
    hide Begin;
  }

  lemma BeginOnly(w: World, env: Env)
    ensures Begin(w, env).calls == w.calls + 1
  {
  }

  /** One event has been logged. */
  predicate Wrote(w: World, w': World) {
    |w'.audit| == |w.audit| + 1 && w.audit <= w'.audit
  }

  function Last(w: World): Write
    requires w.audit != []
  {
    w.audit[|w.audit| - 1]
  }

  /** When the engine fails: if the object cannot be read; and if it writes, exactly if that call is not served, or
      the object to be created is there by then, or the one to be changed is not or has changed. */
  lemma EngineFailsExactly(w: World, env: Env, c: Versions, r: Recipe, x: Obj)
    requires Valid(w, env.home)
    ensures var out, k := CreateOrUpdate(w, env, c, r, x), KeyOf(x);
            var read, written := Begin(w, env), Begin(Begin(w, env), env);
            var served := env.turn(w.calls + 1).fault.Served?;
            if !env.turn(w.calls).fault.Served? then out.res.Err?
            else if k !in read.objs then out.res.Ok? <==> served && k !in written.objs
            else if out.w == read then out.res == Ok(ResultNone)
            else && (served && k in written.objs && written.objs[k].rv == read.objs[k].rv ==> out.res.Ok?)
                 && (out.res.Ok? ==> served && k in written.objs)
                 && (out.res == Ok(ResultUpdated) ==> written.objs[k].rv == read.objs[k].rv)
  {
    hide Hit, Valid, Mutated, Evolves, Begin;
    var k, got := KeyOf(x), GetObj(w, env, KeyOf(x));
    BeginOnly(w, env);
    BeginOnly(got.w, env);
    ReadKey(w, env, k);
    FaultIsNoMiss(env.turn(w.calls).fault);
    var found := if got.res.Err? then Blank(x) else got.res.value;
    MutationKeepsKey(r, env.cfg, x, found, Hit(c, found));
    MutationKeepsVersion(r, env.cfg, x, found, Hit(c, found));
  }

  lemma FaultIsNoMiss(f: Fault)
    ensures !f.Served? ==> f.error != NotFound
  {
  }

  lemma MutationKeepsVersion(r: Recipe, cfg: Config, x: Obj, found: Obj, hit: bool)
    ensures Mutated(r, cfg, x, found, hit).rv == found.rv
  {
  }

  /** How the cleanup of an object ends that was found live and owned: it is gone if somebody else deleted it first,
      still there if the request was served, and otherwise the request's error. */
  lemma CleanedExactly(w: World, env: Env, inst: CR, x: Obj)
    requires Valid(w, env.home) && GetObj(w, env, KeyOf(x)).res.Ok?
    ensures var found, k, fault := GetObj(w, env, KeyOf(x)).res.value, KeyOf(x), env.turn(w.calls + 1).fault;
            var written := Begin(Begin(w, env), env);
            IsResourceOwned(inst, x, found) == Ok(true) ==>
              Cleaned(w, env, inst, x).res
              == if found.terminating then Ok(CleanupResult(k, false))
                 else if fault.Rejected? then Err(fault.error)
                 else if k !in written.objs then Ok(CleanupResult(k, true))
                 else if fault.AnswerLost? then Err(fault.error)
                 else Ok(CleanupResult(k, false))
  {
    hide Valid, IsResourceOwned, Begin;
    BeginOnly(w, env);
    FoundKey(w, env, KeyOf(x));
    FaultIsNoMiss(env.turn(w.calls + 1).fault);
  }

  /** Whatever stops a full pass is its verdict: the operands' error, after which nothing else is reconciled. */
  lemma OperandErrorStops(w: World, env: Env, m: Memory, c: CR)
    requires Alone(w, env, c) && BeingServed(c) && !SaysPaused(c) && w.others == 0 && c.spec.deploy
    requires Pass(w, env, m, false).verdict.Failed? && Pass(w, env, m, false).verdict.error != Panicked
    ensures var out := Pass(w, env, m, false);
            && out.results == [] && out.w.cr.Some? && OnlyStatus(c, out.w.cr.value)
            && out.w.cr.value.status.phase == Deploying && Reads(out.w.cr.value.status, False, True, True)
  {
    hide StatusWrite, Alone, SaysPaused, IsPaused, SetThree, SetUnlessEqual, Summary, Reads, Troubled, ReconcileAll,
         Evolves, Valid, IsSuccess, ErrorText;
    PausedExactly(c);
    ServedPass(w, env, m, c);
    AloneReads(w.(calls := w.calls + 1), env, c);
    var m1, w2, s := ClearedIfNeeded(m, c.spec), w.(calls := w.calls + 2), PreStatus(env.cfg, c.status, c.gen);
    AloneWrites(w2, env, c, s);
    var pre := StatusWrite(w2, env, c.(status := s));
    OperandsCalm(pre.w, env, m1, pre.inst);
    var ops := ReconcileAll(pre.w, env, m1.versions, pre.inst, m1.entries, false);
    AloneWrites(ops.w, env, pre.inst, Aggregated(env.cfg, s, c.gen, ops.results));
    var e := Pass(w, env, m, false).verdict.error;
    AloneWrites(ops.w, env, pre.inst, ErrorStatus(pre.inst.status, e));
    ConditionsWritten(env.cfg, pre.inst.status, c.gen, e);
    AloneIs(w, env, c);
  }

  /** A panic ends the pass at once: the status still says what it said while reconciling. */
  lemma PanicIsNotRecorded(w: World, env: Env, m: Memory, c: CR)
    requires Alone(w, env, c) && BeingServed(c) && !SaysPaused(c) && w.others == 0 && c.spec.deploy
    requires Pass(w, env, m, false).verdict == Failed(Panicked) && Reads(c.status, False, True, True)
    ensures var out := Pass(w, env, m, false).w;
            && out.cr.Some? && OnlyStatus(c, out.cr.value) && out.cr.value.status.phase == Deploying
            && out.cr.value.status.conditions == c.status.conditions
  {
    hide StatusWrite, Alone, SaysPaused, IsPaused, SetThree, SetUnlessEqual, Summary, Reads, Troubled, ReconcileAll,
         Evolves, Valid, IsSuccess, ErrorText;
    PausedExactly(c);
    ServedPass(w, env, m, c);
    AloneReads(w.(calls := w.calls + 1), env, c);
    var m1, w2, s := ClearedIfNeeded(m, c.spec), w.(calls := w.calls + 2), PreStatus(env.cfg, c.status, c.gen);
    AloneWrites(w2, env, c, s);
    var pre := StatusWrite(w2, env, c.(status := s));
    OperandsCalm(pre.w, env, m1, pre.inst);
    var ops := ReconcileAll(pre.w, env, m1.versions, pre.inst, m1.entries, false);
    AloneWrites(ops.w, env, pre.inst, Aggregated(env.cfg, s, c.gen, ops.results));
    ConditionsWritten(env.cfg, c.status, c.gen, Conflict);
    AloneIs(w, env, c);
  }

  /** The last status write of a cleanup may come too late: that the CR has changed or gone is no error, any other
      failure is. */
  lemma LateStatusIsNoError(w: World, env: Env, c: CR)
    ensures var fault := env.turn(w.calls).fault;
            var fails := !fault.Served? && fault.error != Conflict && (fault.Rejected? || Fresh(w, env, c));
            MarkDeleted(w, env, c).err == if fails then Some(fault.error) else None
  {
    FaultsAreFaults(env.turn(w.calls).fault);
    hide Begin;
  }

  /** The copy is of the version that is stored when the call is served. */
  predicate Fresh(w: World, env: Env, c: CR) {
    Begin(w, env).cr.Some? && Begin(w, env).cr.value.rv == c.rv
  }

  lemma FaultsAreFaults(f: Fault)
    ensures !f.Served? ==> f.error == Conflict || f.error.Unavailable?
  {
  }

  /** What the cache does with an object: an error leaves it as it is; an object that was deleted or is being deleted
      is forgotten; any other one is known afterwards, if its kind is filled in. Nothing else is touched. */
  lemma CacheFollows(w: World, env: Env, c: Versions, inst: CR, r: Recipe, o: Obj)
    ensures var out := Build(w, env, c, inst, r, o);
            && (out.res.Err? ==> out.versions == c)
            && (out.res.Ok? ==>
                  var x := MarkedFor(inst, r, o).obj;
                  var found := CreateOrUpdate(w, env, c, r, x).found;
                  && Ok(out.res.value.op) == CreateOrUpdate(w, env, c, r, x).res && out.res.value.resource == KeyOf(x)
                  && (forall ck :: ck != CacheKeyOf(found) ==>
                        (ck in out.versions <==> ck in c) && (ck in c ==> out.versions[ck] == c[ck]))
                  && if out.res.value.op == ResultDeleted || found.terminating
                     then CacheKeyOf(found) !in out.versions && !IsSuccess(out.res.value)
                     else IsSuccess(out.res.value) && (found.typed ==>
                            && CacheKeyOf(found) in out.versions
                            && out.versions[CacheKeyOf(found)] == Stamp(found.uid, found.rv, found.gen)))
  {
    hide CreateOrUpdate, MarkedFor;
  }

  /** A resource that is being deleted counts against all three conditions. */
  lemma DeletionCountsThrice(k: Key, op: OpResult)
    ensures var s := ResourceDeletedResult(k, op).status;
            s.progressing == s.notAvailable == s.degraded == Some("Resource is being deleted.")
  {
  }

  // ---------- the gate ----------

  /** What the gate writes into a single CR, whatever was there: as if everything were deployed. */
  lemma GateSaysDeployed(w: World, env: Env, c: CR)
    requires Alone(w, env, c) && w.others == 0
    ensures var out := SetConditions(w, env);
            && out.err.None? && out.w.cr.Some? && OnlyStatus(c, out.w.cr.value) && out.w.objs == w.objs
            && var s := out.w.cr.value.status;
               && Reads(s, True, False, False)
               && s == c.status.(phase := Deployed, observedGeneration := c.gen,
                                 observedVersion := env.cfg.operatorVersion, conditions := s.conditions)
  {
    hide StatusWrite, Alone, Summary, SetThree, Reads;
    AloneReads(w, env, c);
    AloneWrites(w.(calls := w.calls + 1), env, c, Aggregated(env.cfg, c.status, c.gen, []));
    AggregatedReads(env.cfg, c.status, c.gen, []);
    AloneIs(w, env, c);
  }
}

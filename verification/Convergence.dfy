/** What the operator achieves when it is left alone: a CR that says Deployed tells the truth, and passes
    converge to a cluster that nothing writes to any more. */
module Convergence {
  import opened Kube
  import opened ApiServer
  import opened Cache
  import opened Ownership
  import opened Resource
  import opened Operands
  import opened StatusReport
  import opened Controller
  import opened Tracking
  import opened Expectations
  import opened CacheRefinement
  import opened Runs

  // ---------- being left alone ----------

  /** Nobody else writes around the calls from `lo` up to `hi`; faults are allowed. */
  ghost predicate Quiet(env: Env, lo: nat, hi: nat) {
    forall n: nat | lo <= n < hi :: env.turn(n).edits == []
  }

  /** From call `lo` on nobody else writes and no call fails. */
  ghost predicate Calm(env: Env, lo: nat) {
    forall n: nat | lo <= n :: env.turn(n).edits == [] && env.turn(n).fault == Served
  }

  lemma QuietBegin(w: World, env: Env, hi: nat)
    requires Quiet(env, w.calls, hi) && w.calls < hi
    ensures Begin(w, env) == w.(calls := w.calls + 1)
  {
  }

  lemma CalmBegin(w: World, env: Env)
    requires Calm(env, w.calls)
    ensures Begin(w, env) == w.(calls := w.calls + 1) && FaultOf(w, env).Served?
  {
  }

  /** Nothing but the object at one key has changed. */
  ghost predicate OnlyKey(w: World, w': World, k: Key) {
    && w'.cr == w.cr && w'.others == w.others
    && w'.objs - {k} == w.objs - {k}
  }

  lemma ReadOnlyKey(w: World, env: Env, k: Key)
    requires Quiet(env, w.calls, w.calls + 1)
    ensures var w' := GetObj(w, env, k).w; OnlyKey(w, w', k) && w' == w.(calls := w.calls + 1)
  {
    hide Begin;
    QuietBegin(w, env, w.calls + 1);
  }

  lemma CreateOnlyKey(w: World, env: Env, o: Obj)
    requires Quiet(env, w.calls, w.calls + 1)
    ensures var w' := CreateObj(w, env, o).w; OnlyKey(w, w', KeyOf(o)) && w'.calls == w.calls + 1
  {
    hide Begin;
    QuietBegin(w, env, w.calls + 1);
  }

  lemma UpdateOnlyKey(w: World, env: Env, o: Obj)
    requires Quiet(env, w.calls, w.calls + 1)
    ensures var w' := UpdateObj(w, env, o).w; OnlyKey(w, w', KeyOf(o)) && w'.calls == w.calls + 1
  {
    hide Begin;
    QuietBegin(w, env, w.calls + 1);
  }

  lemma DeleteOnlyKey(w: World, env: Env, k: Key)
    requires Quiet(env, w.calls, w.calls + 1)
    ensures var w' := DeleteObject(w, env, k).w; OnlyKey(w, w', k) && w'.calls == w.calls + 1
  {
    hide Begin;
    QuietBegin(w, env, w.calls + 1);
  }

  lemma WriteOnlyKey(w: World, env: Env, o: Obj)
    requires Quiet(env, w.calls, w.calls + 1)
    ensures OnlyKey(w, GetObj(w, env, KeyOf(o)).w, KeyOf(o)) && GetObj(w, env, KeyOf(o)).w == w.(calls := w.calls + 1)
    ensures OnlyKey(w, CreateObj(w, env, o).w, KeyOf(o)) && CreateObj(w, env, o).w.calls == w.calls + 1
    ensures OnlyKey(w, UpdateObj(w, env, o).w, KeyOf(o)) && UpdateObj(w, env, o).w.calls == w.calls + 1
    ensures OnlyKey(w, DeleteObject(w, env, KeyOf(o)).w, KeyOf(o)) && DeleteObject(w, env,
        KeyOf(o)).w.calls == w.calls + 1
  {
    hide GetObj, CreateObj, UpdateObj, DeleteObject, OnlyKey, Quiet;
    ReadOnlyKey(w, env, KeyOf(o));
    CreateOnlyKey(w, env, o);
    UpdateOnlyKey(w, env, o);
    DeleteOnlyKey(w, env, KeyOf(o));
  }

  lemma OnlyKeyTransitive(w: World, w1: World, w2: World, k: Key)
    requires OnlyKey(w, w1, k) && OnlyKey(w1, w2, k)
    ensures OnlyKey(w, w2, k)
  {
  }

  lemma EngineOnlyKey(w: World, env: Env, c: Versions, r: Recipe, x: Obj)
    requires Valid(w, env.home) && Quiet(env, w.calls, CreateOrUpdate(w, env, c, r, x).w.calls)
    ensures OnlyKey(w, CreateOrUpdate(w, env, c, r, x).w, KeyOf(x))
    ensures w.calls < CreateOrUpdate(w, env, c, r, x).w.calls
  {
    hide GetObj, CreateObj, UpdateObj, DeleteObject, Mutated, Hit, Valid, OnlyKey;
    var k := KeyOf(x);
    var got := GetObj(w, env, k);
    GetKeeps(w, env, k);
    EngineCalls(w, env, c, r, x);
    WriteOnlyKey(w, env, x);
    if got.res.Err? {
      var made := Mutated(r, env.cfg, x, Blank(x), Hit(c, Blank(x)));
      MutationKeepsKey(r, env.cfg, x, Blank(x), Hit(c, Blank(x)));
      if got.res.error == NotFound {
        WriteOnlyKey(got.w, env, made);
        OnlyKeyTransitive(w, got.w, CreateObj(got.w, env, made).w, k);
      }
    } else {
      var next := Mutated(r, env.cfg, x, got.res.value, Hit(c, got.res.value));
      MutationKeepsKey(r, env.cfg, x, got.res.value, Hit(c, got.res.value));
      assert KeyOf(got.res.value) == k by { ReadKey(w, env, k); }
      if next != got.res.value {
        WriteOnlyKey(got.w, env, next);
        OnlyKeyTransitive(w, got.w, UpdateObj(got.w, env, next).w, k);
        OnlyKeyTransitive(w, got.w, DeleteObject(got.w, env, k).w, k);
      }
    }
  }

  lemma MutationKeepsKey(r: Recipe, cfg: Config, x: Obj, found: Obj, hit: bool)
    ensures KeyOf(Mutated(r, cfg, x, found, hit)) == KeyOf(found)
  {
  }

  lemma ReadKey(w: World, env: Env, k: Key)
    requires Valid(w, env.home)
    ensures GetObj(w, env, k).res.Ok? ==> KeyOf(GetObj(w, env, k).res.value) == k
  {
    hide Begin;
    GetKeeps(w, env, k);
  }

  lemma OneCall(w: World, env: Env, o: Obj)
    requires Valid(w, env.home)
    ensures GetObj(w, env, KeyOf(o)).w.calls == w.calls + 1 && CreateObj(w, env, o).w.calls == w.calls + 1
    ensures UpdateObj(w, env, o).w.calls == w.calls + 1 && DeleteObject(w, env, KeyOf(o)).w.calls == w.calls + 1
  {
    BeginKeeps(w, env);
    hide Begin;
  }

  lemma EngineCalls(w: World, env: Env, c: Versions, r: Recipe, x: Obj)
    requires Valid(w, env.home)
    ensures var out, got := CreateOrUpdate(w, env, c, r, x), GetObj(w, env, KeyOf(x));
            && got.w.calls == w.calls + 1
            && out.w.calls == if (got.res.Err? && got.res.error != NotFound)
                                 || (got.res.Ok? && Mutated(r, env.cfg, x, got.res.value, Hit(c,
                                     got.res.value)) == got.res.value)
                              then w.calls + 1 else w.calls + 2
  {
    hide GetObj, CreateObj, UpdateObj, DeleteObject, Mutated, Hit, Valid;
    OneCall(w, env, x);
    GetKeeps(w, env, KeyOf(x));
    var got := GetObj(w, env, KeyOf(x));
    if got.res.Err? {
      OneCall(got.w, env, Mutated(r, env.cfg, x, Blank(x), Hit(c, Blank(x))));
    } else {
      OneCall(got.w, env, Mutated(r, env.cfg, x, got.res.value, Hit(c, got.res.value)));
    }
  }

  // ---------- a deployed CR is truthful ----------

  /** The object an entry stands for is stored as the operand wants it. */
  ghost predicate Present(w: World, cfg: Config, e: Entry) {
    && KeyOf(e.obj) in w.objs
    && var o := w.objs[KeyOf(e.obj)];
       !o.terminating && InSync(UpdateOf(e.rule), cfg, e.obj, o) && CarriesMeta(e.obj, o)
  }

  /** An entry that a pass for this CR is done with. */
  ghost predicate Done(w: World, cfg: Config, inst: CR, e: Entry) {
    Skipped(e, inst.spec) || (Expected(inst, cfg, e) == Some(e.obj) && Present(w, cfg, e))
  }

  lemma EntrySettles(w: World, env: Env, c: Versions, inst: CR, e: Entry)
    requires Valid(w, env.home) && Named(c)
    requires EntryHonest(w, c, env.cfg, inst.nn.ns, inst.spec, e)
    ensures var out := ReconcileEntry(w, env, c, inst, e, false);
            out.err.None? && (forall r <- out.results :: IsSuccess(r)) ==> Done(out.w, env.cfg, inst, out.entries[0])
  {
    hide CreateOrUpdate, Valid, Named, Honest, Prepared, InSync, CarriesMeta, Remember, MarkedFor;
    var p := Prepared(e.rule, env.cfg, inst.nn.ns, inst.spec, e.obj);
    if !Skipped(e, inst.spec) && p.Some? {
      PreparedKey(env.cfg, inst.nn.ns, inst.spec, e);
      var r := RecipeOf(e.rule, false);
      var m := MarkedFor(inst, r, p.value);
      MarkedKeepsPayload(inst, r, p.value);
      HonestMarked(w, c, UpdateOf(e.rule), env.cfg, p.value, m.obj);
      if m.err.None? {
        EngineSettles(w, env, c, r, m.obj);
        BuiltAsExpected(w, env, c, inst, e, p.value);
        ExpectedAgain(inst, env.cfg, e);
        var out := ReconcileEntry(w, env, c, inst, e, false);
        var engine := CreateOrUpdate(w, env, c, r, m.obj);
        if out.err.None? && IsSuccess(out.results[0]) {
          assert out.results[0] in out.results;
          SettledIsPresent(r, env.cfg, m.obj, engine);
        }
      }
    }
  }

  lemma SettledIsPresent(r: Recipe, cfg: Config, x: Obj, out: EngineOut)
    requires Settled(r, cfg, x, out) && out.res != Ok(ResultDeleted) && !out.found.terminating
    ensures KeyOf(x) in out.w.objs && !out.w.objs[KeyOf(x)].terminating
    ensures InSync(r.update, cfg, x, out.w.objs[KeyOf(x)]) && CarriesMeta(x, out.w.objs[KeyOf(x)])
  {
  }

  lemma MarkedKeepsPayload(inst: CR, r: Recipe, o: Obj)
    requires r.isCluster
    ensures var x := MarkedFor(inst, r, o).obj;
            && KeyOf(x) == KeyOf(o) && x.payload == o.payload
            && o.labels.Keys <= x.labels.Keys && o.annotations.Keys <= x.annotations.Keys
  {
  }

  lemma EntryOnlyKey(w: World, env: Env, c: Versions, inst: CR, e: Entry)
    requires Valid(w, env.home) && WellKinded(e)
    requires Quiet(env, w.calls, ReconcileEntry(w, env, c, inst, e, false).w.calls)
    ensures OnlyKey(w, ReconcileEntry(w, env, c, inst, e, false).w, TargetKey(inst.nn.ns, inst.spec, e))
    ensures w.calls <= ReconcileEntry(w, env, c, inst, e, false).w.calls
  {
    hide CreateOrUpdate, Valid, Prepared, Remember, MarkedFor, TargetKey;
    var p := Prepared(e.rule, env.cfg, inst.nn.ns, inst.spec, e.obj);
    if !Skipped(e, inst.spec) && p.Some? {
      PreparedKey(env.cfg, inst.nn.ns, inst.spec, e);
      var r := RecipeOf(e.rule, false);
      MarkedKeepsPayload(inst, r, p.value);
      var m := MarkedFor(inst, r, p.value);
      if m.err.None? {
        EngineOnlyKey(w, env, c, r, m.obj);
      }
    }
  }

  lemma DoneStays(w: World, w': World, cfg: Config, inst: CR, e: Entry, d: Entry)
    requires Done(w, cfg, inst, d) && WellKinded(d)
    requires OnlyKey(w, w', TargetKey(inst.nn.ns, inst.spec, e))
    requires Identity(inst.nn.ns, e) != Identity(inst.nn.ns, d)
    ensures Done(w', cfg, inst, d)
  {
    hide InSync, CarriesMeta, Expected;
    if !Skipped(d, inst.spec) {
      ExpectedKey(inst, cfg, d);
      IdentitiesSeparateKeys(inst.nn.ns, inst.spec, e, d);
      var k := KeyOf(d.obj);
      assert k in w.objs - {TargetKey(inst.nn.ns, inst.spec, e)};
      assert k in w'.objs - {TargetKey(inst.nn.ns, inst.spec, e)};
    }
  }

  /** A quiet pass over a list in which every result is a success leaves every entry done. */
  lemma {:induction false} ListSettles(w: World, env: Env, c: Versions, inst: CR, before: seq<Entry>, es: seq<Entry>)
    requires Valid(w, env.home)
    requires AllHonest(w, c, env.cfg, inst.nn.ns, inst.spec, before + es)
    requires DistinctEntries(inst.nn.ns, before + es)
    requires forall d <- before :: Done(w, env.cfg, inst, d)
    requires var out := ReconcileAll(w, env, c, inst, es, false);
             Quiet(env, w.calls, out.w.calls) && out.err.None? && forall r <- out.results :: IsSuccess(r)
    ensures var out := ReconcileAll(w, env, c, inst, es, false);
            forall d <- before + out.entries :: Done(out.w, env.cfg, inst, d)
    decreases |es|
  {
    hide ReconcileEntry, EntryHonest, Valid, Evolves, Named, Identity, Done, IsSuccess;
    var out := ReconcileAll(w, env, c, inst, es, false);
    if es == [] {
      assert before + out.entries == before;
    } else {
      var e := es[0];
      assert (before + es)[|before|] == e;
      var first := ReconcileEntry(w, env, c, inst, e, false);
      var rest := ReconcileAll(first.w, env, first.versions, inst, es[1..], false);
      assert first.entries == [first.entries[0]];
      EntryKeepsHonest(w, env, c, inst, e);
      CallsGrow(first.w, env, first.versions, inst, es[1..]);
      assert out.results == first.results + rest.results;
      assert forall r <- first.results :: r in out.results;
      assert forall r <- rest.results :: r in out.results;
      EntrySettles(w, env, c, inst, e);
      EntryWellKinded(w, c, env.cfg, inst.nn.ns, inst.spec, e);
      EntryOnlyKey(w, env, c, inst, e);
      StepKeepsAllHonest(w, env, c, inst, before, es);
      var mid := before + first.entries;
      assert mid + es[1..] == before + (first.entries + es[1..]);
      forall d <- mid
        ensures Done(first.w, env.cfg, inst, d)
      {
        if d in before {
          var i :| 0 <= i < |before| && before[i] == d;
          assert (before + es)[i] == d;
          assert Identity(inst.nn.ns, d) != Identity(inst.nn.ns, e);
          EntryWellKinded(w, c, env.cfg, inst.nn.ns, inst.spec, d);
          DoneStays(w, first.w, env.cfg, inst, e, d);
        }
      }
      ListSettles(first.w, env, first.versions, inst, mid, es[1..]);
      assert mid + rest.entries == before + (first.entries + rest.entries);
    }
  }

  lemma EntryWellKinded(w: World, c: Versions, cfg: Config, ns: string, spec: Spec, e: Entry)
    requires EntryHonest(w, c, cfg, ns, spec, e)
    ensures WellKinded(e)
  {
  }

  lemma {:induction false} CallsGrow(w: World, env: Env, c: Versions, inst: CR, es: seq<Entry>)
    requires Valid(w, env.home)
    ensures w.calls <= ReconcileAll(w, env, c, inst, es, false).w.calls
    decreases |es|
  {
    hide ReconcileEntry, Valid, Evolves;
    if es != [] {
      var first := ReconcileEntry(w, env, c, inst, es[0], false);
      EntryKeeps(w, env, c, inst, es[0], false);
      if first.err.None? {
        CallsGrow(first.w, env, first.versions, inst, es[1..]);
      }
    }
  }

  /** What a pass without error leaves in the operand lists. */
  ghost predicate WrittenBack(cfg: Config, inst: CR, es: seq<Entry>, es': seq<Entry>) {
    && |es'| == |es|
    && forall i | 0 <= i < |es| ::
         if Skipped(es[i], inst.spec) then es'[i] == es[i]
         else es'[i].rule == es[i].rule && Expected(inst, cfg, es[i]) == Some(es'[i].obj)
  }

  lemma {:induction false} ListWrittenBack(w: World, env: Env, c: Versions, inst: CR, es: seq<Entry>)
    requires ReconcileAll(w, env, c, inst, es, false).err.None?
    ensures WrittenBack(env.cfg, inst, es, ReconcileAll(w, env, c, inst, es, false).entries)
    decreases |es|
  {
    hide ReconcileEntry, Expected, Skipped;
    if es != [] {
      var first := ReconcileEntry(w, env, c, inst, es[0], false);
      EntryWrittenBack(w, env, c, inst, es[0]);
      ListWrittenBack(first.w, env, first.versions, inst, es[1..]);
      var out := ReconcileAll(w, env, c, inst, es, false);
      var rest := ReconcileAll(first.w, env, first.versions, inst, es[1..], false);
      forall i | 0 < i < |es|
        ensures es[i] == es[1..][i - 1] && out.entries[i] == rest.entries[i - 1]
      {
      }
    }
  }

  lemma EntryWrittenBack(w: World, env: Env, c: Versions, inst: CR, e: Entry)
    requires ReconcileEntry(w, env, c, inst, e, false).err.None?
    ensures WrittenBack(env.cfg, inst, [e], ReconcileEntry(w, env, c, inst, e, false).entries)
  {
    hide CreateOrUpdate, Prepared, Remember, MarkedFor;
    var p := Prepared(e.rule, env.cfg, inst.nn.ns, inst.spec, e.obj);
    if !Skipped(e, inst.spec) && p.Some? {
      BuiltAsExpected(w, env, c, inst, e, p.value);
    }
  }

  /** The CR that a full pass serves: initialized, alone, not paused, not being deleted, gate on. */
  predicate Ready(c: CR) {
    c.status.phase != Empty && !c.deleting && !NeedsMigration(c) && !IsPaused(c) && c.spec.deploy
  }

  lemma DoneForCr(w: World, w': World, cfg: Config, inst: CR, c: CR, e: Entry)
    requires Done(w, cfg, inst, e) && w'.objs == w.objs
    requires c.nn == inst.nn && c.labels == inst.labels && c.spec == inst.spec
    ensures Done(w', cfg, c, e)
  {
    hide InSync, CarriesMeta, Prepared, Skipped;
  }

  /** A stored object with the expected annotations carries the CR's owner marks. */
  lemma DoneIsOwned(w: World, cfg: Config, c: CR, e: Entry)
    requires Done(w, cfg, c, e) && !Skipped(e, c.spec) && c.nn.name != ""
    ensures OwnedBy(c, w.objs[KeyOf(e.obj)])
  {
    hide Prepared, InSync;
    assert NAMESPACED_NAME in e.obj.annotations && OWNER_TYPE in e.obj.annotations;
    assert NAMESPACED_NAME != OWNER_TYPE by { assert |NAMESPACED_NAME| != |OWNER_TYPE|; }
  }

  lemma DeployTruthful(w: World, env: Env, m: Memory, inst: CR)
    requires MemoryOk(w, env, m) && Copy(w, env.home, inst) && inst.spec == m.lastSpec && inst.spec.deploy
    requires Quiet(env, w.calls, Deploy(w, env, m, inst, false).w.calls)
    requires var out := Deploy(w, env, m, inst, false);
             out.verdict == Finished && out.w.cr.Some? && out.w.cr.value.status.phase == Deployed
    ensures var out := Deploy(w, env, m, inst, false);
            && (forall e <- out.m.entries :: Done(out.w, env.cfg, out.w.cr.value, e))
            && WrittenBack(env.cfg, out.w.cr.value, m.entries, out.m.entries)
  {
    hide Valid, Copy, Kept, StatusWrite, ReconcileAll, PreStatus, Aggregated, Evolves, AllHonest, DistinctEntries, Done,
         Holds, UniqueTypes, IsSuccess, ErrorStatus;
    var status := PreStatus(env.cfg, inst.status, inst.gen);
    StatusWriteEffect'(w, env, inst, status);
    var pre := StatusWrite(w, env, inst.(status := status));
    assert pre.err.None?;
    MemoryKept(w, pre.w, env, m);
    CopyHome(pre.w, env.home, pre.inst);
    var ops := ReconcileAll(pre.w, env, m.versions, pre.inst, m.entries, false);
    assert ops.err.None?;
    OperandsRefine(pre.w, env, m, m, pre.inst);
    CopyEvolves(pre.w, ops.w, env.home, pre.inst);
    var done := Aggregated(env.cfg, pre.inst.status, pre.inst.gen, ops.results);
    StatusWriteEffect'(ops.w, env, pre.inst, done);
    var post := StatusWrite(ops.w, env, pre.inst.(status := done));
    assert post.err.None?;
    AggregationExact(env.cfg, pre.inst.status, pre.inst.gen, ops.results);
    EvolvesCalls(pre.w, ops.w);
    assert [] + m.entries == m.entries && [] + ops.entries == ops.entries;
    ListSettles(pre.w, env, m.versions, pre.inst, [], m.entries);
    ListWrittenBack(pre.w, env, m.versions, pre.inst, m.entries);
    QuietStatusWrite(ops.w, env, pre.inst.(status := done));
    forall e <- ops.entries
      ensures Done(post.w, env.cfg, post.inst, e)
    {
      DoneForCr(ops.w, post.w, env.cfg, pre.inst, post.inst, e);
    }
  }

  lemma EvolvesCalls(w: World, w': World)
    requires Evolves(w, w')
    ensures w.calls <= w'.calls
  {
  }

  lemma StatusWriteEffect'(w: World, env: Env, inst: CR, status: Status)
    requires Valid(w, env.home) && Copy(w, env.home, inst)
    ensures var out := StatusWrite(w, env, inst.(status := status));
            && Valid(out.w, env.home) && Kept(w, out.w, env.home) && Copy(out.w, env.home, out.inst)
            && SameMeta(out.inst, inst) && out.w.calls == w.calls + 1
            && (out.err.None? ==> out.w.cr == Some(out.inst) && out.inst.status == status)
  {
    hide StatusWrite, Valid;
    StatusWriteEffect(w, env, inst.(status := status));
  }

  lemma QuietStatusWrite(w: World, env: Env, inst: CR)
    requires Quiet(env, w.calls, w.calls + 1)
    ensures StatusWrite(w, env, inst).w.objs == w.objs && StatusWrite(w, env, inst).w.others == w.others
  {
    QuietBegin(w, env, w.calls + 1);
    hide Begin;
  }

  /** A quiet pass for a CR with the feature gate on that finishes with phase Deployed has every resource of
      the operand lists in the store: not terminating, with the expected payload, all expected labels and
      annotations, and owned by the CR. Faults are allowed; edits by others during the pass are not. */
  lemma DeployedIsTruthful(w: World, env: Env, m: Memory)
    requires MemoryOk(w, env, m)
    requires w.cr.Some? && !w.cr.value.deleting && !IsPaused(w.cr.value) && w.cr.value.spec.deploy && w.others == 0
    requires var out := Pass(w, env, m, false);
             && Quiet(env, w.calls, out.w.calls)
             && out.verdict == Finished && out.w.cr.Some? && out.w.cr.value.status.phase == Deployed
    ensures var out := Pass(w, env, m, false);
            && (forall e <- out.m.entries :: Done(out.w, env.cfg, out.w.cr.value, e))
            && WrittenBack(env.cfg, out.w.cr.value, m.entries, out.m.entries)
  {
    hide MemoryOk, Copy, Kept, Evolves, Valid, ResourceWrite, CleanupPass, Without, Deploy, Done, WrittenBack;
    var out := Pass(w, env, m, false);
    MemoryValid(w, env, m);
    ReadEffect(w, env);
    var got := GetCr(w, env);
    MemoryEvolves(w, got.w, env, m);
    if got.res.Ok? {
      MemoryClears(got.w, env, m, got.res.value.spec);
      ServeCalls(got.w, env, ClearedIfNeeded(m, got.res.value.spec), got.res.value);
    }
    QuietBegin(w, env, out.w.calls);
    var inst := got.res.value;
    var m1 := ClearedIfNeeded(m, inst.spec);
    if !IsInitialized(inst) {
      ResourceWriteDeploying(got.w, env, inst, AddFinalizer(inst, FINALIZER).finalizers);
    } else if NeedsMigration(inst) {
      ResourceWriteDeploying(got.w, env, inst, AddFinalizer(RemoveFinalizer(inst, OLD_FINALIZER),
          FINALIZER).finalizers);
    } else {
      ListEffect(got.w, env);
      var all := ListCrs(got.w, env);
      MemoryEvolves(got.w, all.w, env, m1);
      CopyEvolves(got.w, all.w, env.home, inst);
      QuietBegin(got.w, env, out.w.calls);
      assert all.w.objs == w.objs && all.w.others == 0;
      DeployTruthful(all.w, env, m1, inst);
    }
  }

  /** The same in every reachable state: after any run of a started operator, with any faults and edits. */
  lemma ReachableDeployedIsTruthful(w: World, env: Env, bundle: seq<Entry>, steps: seq<Event>)
    requires Valid(w, env.home)
    requires DistinctEntries(env.home.ns, bundle) && forall e <- bundle :: WellKinded(e)
    requires var run := Run(w, env, Booted(bundle), bundle, steps, false);
             && run.w.cr.Some? && !run.w.cr.value.deleting && !IsPaused(run.w.cr.value) && run.w.cr.value.spec.deploy
             && run.w.others == 0
             && var out := Pass(run.w, env, run.m, false);
                && Quiet(env, run.w.calls, out.w.calls)
                && out.verdict == Finished && out.w.cr.Some? && out.w.cr.value.status.phase == Deployed
    ensures var run := Run(w, env, Booted(bundle), bundle, steps, false);
            var out := Pass(run.w, env, run.m, false);
            forall e <- out.m.entries :: Done(out.w, env.cfg, out.w.cr.value, e)
  {
    hide Run, Pass, Valid, MemoryOk, DistinctEntries, Done, WrittenBack, Quiet, IsPaused;
    CacheIsInvisible(w, env, bundle, steps);
    var run := Run(w, env, Booted(bundle), bundle, steps, false);
    DeployedIsTruthful(run.w, env, run.m);
  }

  lemma ResourceWriteDeploying(w: World, env: Env, inst: CR, finalizers: seq<string>)
    requires Valid(w, env.home) && Copy(w, env.home, inst)
    ensures var out := ResourceWrite(w, env, inst.(finalizers := finalizers));
            out.err.None? ==> out.w.cr.Some? && out.w.cr.value.status.phase == Deploying
  {
    hide MetaWrite, StatusWrite, Copy, Kept, SameMeta;
    MetaWriteKeeps(w, env, inst, finalizers);
    var meta := MetaWrite(w, env, inst.(finalizers := finalizers));
    KeptValid(w, meta.w, env.home);
    StatusWriteEffect'(meta.w, env, meta.inst, DeployingStatus(meta.inst.status, meta.inst.gen));
  }

  lemma WriteCalls(w: World, env: Env, inst: CR)
    ensures StatusWrite(w, env, inst).w.calls == w.calls + 1 && MetaWrite(w, env, inst).w.calls == w.calls + 1
    ensures GetCr(w, env).w.calls == w.calls + 1 && ListCrs(w, env).w.calls == w.calls + 1
  {
    hide ApplyEdits;
  }

  lemma ErrorHandledCalls(w: World, env: Env, inst: CR, err: Option<Error>)
    ensures w.calls <= ErrorHandled(w, env, inst, err).w.calls
  {
    hide StatusWrite;
    if err.Some? {
      WriteCalls(w, env, inst.(status := ErrorStatus(inst.status, err.value)));
    }
  }

  lemma DeployCalls(w: World, env: Env, m: Memory, inst: CR)
    requires MemoryOk(w, env, m) && Copy(w, env.home, inst) && inst.spec == m.lastSpec
    ensures w.calls < Deploy(w, env, m, inst, false).w.calls
  {
    hide Valid, Copy, Kept, StatusWrite, ReconcileOperands, ErrorHandled, PreStatus, Aggregated, Evolves, MemoryOk;
    MemoryValid(w, env, m);
    var status := PreStatus(env.cfg, inst.status, inst.gen);
    StatusWriteEffect'(w, env, inst, status);
    var pre := StatusWrite(w, env, inst.(status := status));
    ErrorHandledCalls(pre.w, env, pre.inst, pre.err);
    MemoryKept(w, pre.w, env, m);
    CopyHome(pre.w, env.home, pre.inst);
    OperandsRefine(pre.w, env, m, m, pre.inst);
    var ops := ReconcileOperands(pre.w, env, m, pre.inst, false);
    EvolvesCalls(pre.w, ops.w);
    ErrorHandledCalls(ops.w, env, pre.inst, ops.err);
    var done := Aggregated(env.cfg, pre.inst.status, pre.inst.gen, ops.results);
    WriteCalls(ops.w, env, pre.inst.(status := done));
    var post := StatusWrite(ops.w, env, pre.inst.(status := done));
    ErrorHandledCalls(post.w, env, post.inst, post.err);
  }

  lemma CleanupCalls(w: World, env: Env, inst: CR, entries: seq<Entry>)
    requires Valid(w, env.home) && Copy(w, env.home, inst)
    ensures w.calls <= CleanupPass(w, env, inst, entries).w.calls
  {
    hide Copy, StatusWrite, MetaWrite, Teardown, Evolves, Valid, Without, DeletingStatus, DeletedStatus, HasOurs, Kept;
    WriteCalls(w, env, inst.(status := DeletedStatus(inst.status, inst.gen)));
    var status := DeletingStatus(inst.status, inst.gen);
    StatusWriteEffect'(w, env, inst, status);
    var mark := StatusWrite(w, env, inst.(status := status));
    TeardownKeeps(mark.w, env, mark.inst, entries);
    var down := Teardown(mark.w, env, mark.inst, entries);
    EvolvesCalls(mark.w, down.w);
    WriteCalls(down.w, env, Released(mark.inst));
    var freed := MetaWrite(down.w, env, Released(mark.inst));
    WriteCalls(freed.w, env, freed.inst.(status := DeletedStatus(freed.inst.status, freed.inst.gen)));
  }

  lemma ServeCalls(w: World, env: Env, m: Memory, inst: CR)
    requires MemoryOk(w, env, m) && Copy(w, env.home, inst) && inst.spec == m.lastSpec
    ensures w.calls <= Serve(w, env, m, inst, false).w.calls
    ensures IsInitialized(inst) && !NeedsMigration(inst) && !inst.deleting ==>
              w.calls < Serve(w, env, m, inst, false).w.calls
  {
    hide Copy, ListCrs, StatusWrite, MetaWrite, MultipleStatus, Evolves, Deploy, ErrorHandled, ErrorStatus, Without,
         CleanupPass;
    if !IsInitialized(inst) {
      HandledWriteCalls(w, env, AddFinalizer(inst, FINALIZER));
    } else if NeedsMigration(inst) {
      HandledWriteCalls(w, env, AddFinalizer(RemoveFinalizer(inst, OLD_FINALIZER), FINALIZER));
    } else if inst.deleting {
      CleanupCalls(w, env, inst, m.entries);
    } else {
      ListEffect(w, env);
      var all := ListCrs(w, env);
      MemoryEvolves(w, all.w, env, m);
      CopyEvolves(w, all.w, env.home, inst);
      hide MemoryOk;
      if all.res.Ok? && all.res.value.0.Some? {
        WriteCalls(all.w, env, all.res.value.0.value.(status := MultipleStatus(all.res.value.0.value.status)));
      }
      WriteCalls(all.w, env, inst.(status := PausedStatus(inst.status, inst.gen)));
      DeployCalls(all.w, env, m, inst);
    }
  }

  lemma HandledWriteCalls(w: World, env: Env, inst: CR)
    ensures var out := ResourceWrite(w, env, inst); w.calls <= ErrorHandled(out.w, env, out.inst, out.err).w.calls
  {
    hide StatusWrite, MetaWrite, ErrorHandled;
    WriteCalls(w, env, inst);
    var meta := MetaWrite(w, env, inst);
    WriteCalls(meta.w, env, meta.inst.(status := DeployingStatus(meta.inst.status, meta.inst.gen)));
    var out := ResourceWrite(w, env, inst);
    ErrorHandledCalls(out.w, env, out.inst, out.err);
  }

  // ---------- convergence ----------

  lemma CalmIsQuiet(env: Env, lo: nat, mid: nat, hi: nat)
    requires Calm(env, lo) && lo <= mid
    ensures Quiet(env, mid, hi) && Calm(env, mid)
  {
  }

  ghost predicate Live(w: World) {
    forall k <- w.objs :: !w.objs[k].terminating
  }

  lemma CalmCreate(w: World, env: Env, o: Obj)
    requires Calm(env, w.calls) && Live(w) && KeyOf(o) !in w.objs
    ensures var r := CreateObj(w, env, o); r.res.Ok? && !r.res.value.terminating && Live(r.w)
  {
    hide Begin;
    CalmBegin(w, env);
  }

  lemma CalmUpdateLive(w: World, env: Env, o: Obj)
    requires Calm(env, w.calls) && Live(w) && Snapshot(w, o)
    ensures var r := UpdateObj(w, env, o); r.res.Ok? && !r.res.value.terminating && Live(r.w)
  {
    hide Begin;
    CalmBegin(w, env);
  }

  lemma CalmGet(w: World, env: Env, k: Key)
    requires Calm(env, w.calls)
    ensures var r := GetObj(w, env, k);
            && r.w == w.(calls := w.calls + 1)
            && (k in w.objs ==> r.res == Ok(Decode(w, env, w.objs[k])))
            && (k !in w.objs ==> r.res == Err(NotFound))
  {
    hide Begin;
    CalmBegin(w, env);
  }

  /** Without faults and interference the engine succeeds on an object that is not being deleted. */
  lemma EngineSucceeds(w: World, env: Env, c: Versions, r: Recipe, x: Obj)
    requires Valid(w, env.home) && Calm(env, w.calls) && Live(w) && !r.immutable
    ensures var out := CreateOrUpdate(w, env, c, r, x);
            out.res.Ok? && out.res.value != ResultDeleted && !out.found.terminating && Live(out.w)
  {
    hide Mutated, Hit, Valid, GetObj, CreateObj, UpdateObj, Calm;
    CalmGet(w, env, KeyOf(x));
    var got := GetObj(w, env, KeyOf(x));
    CalmIsQuiet(env, w.calls, got.w.calls, 0);
    if got.res.Err? {
      MutationKeepsKey(r, env.cfg, x, Blank(x), Hit(c, Blank(x)));
      CalmCreate(got.w, env, Mutated(r, env.cfg, x, Blank(x), Hit(c, Blank(x))));
    } else {
      var hit := Hit(c, got.res.value);
      ReadKey(w, env, KeyOf(x));
      MutationKeepsSnapshot(got.w, r, env.cfg, x, got.res.value, hit);
      CalmUpdateLive(got.w, env, Mutated(r, env.cfg, x, got.res.value, hit));
    }
  }

  /** On an object that is as expected the engine writes nothing, whatever the cache says. */
  lemma EngineRests(w: World, env: Env, c: Versions, r: Recipe, x: Obj)
    requires Valid(w, env.home) && Calm(env, w.calls) && KeyOf(x) in w.objs
    requires var o := w.objs[KeyOf(x)]; !o.terminating && InSync(r.update, env.cfg, x, o) && CarriesMeta(x, o)
    ensures var out := CreateOrUpdate(w, env, c, r, x);
            out.res == Ok(ResultNone) && out.w == w.(calls := w.calls + 1) && !out.found.terminating
  {
    hide Mutated, Hit, Valid;
    CalmBegin(w, env);
    var got := GetObj(w, env, KeyOf(x));
    MutationRests(r, env.cfg, x, got.res.value, Hit(c, got.res.value));
    hide Begin;
  }

  lemma MutationRests(r: Recipe, cfg: Config, x: Obj, o: Obj, hit: bool)
    requires !o.terminating && InSync(r.update, cfg, x, o) && CarriesMeta(x, o)
    ensures Mutated(r, cfg, x, o, hit) == o
  {
    SyncedUpdateIsNoop(r.update, cfg, x, o);
    assert o.labels + x.labels == o.labels;
    assert o.annotations + x.annotations == o.annotations;
    assert Merged(x, o) == o;
    hide ApplyUpdate, SyncedPayload;
  }

  /** Preparing an entry does not panic, or the entry is skipped. */
  predicate Preparable(cfg: Config, inst: CR, e: Entry) {
    Skipped(e, inst.spec) || Expected(inst, cfg, e).Some?
  }

  lemma EntrySucceeds(w: World, env: Env, c: Versions, inst: CR, e: Entry)
    requires Valid(w, env.home) && Calm(env, w.calls) && Live(w)
    requires Preparable(env.cfg, inst, e) && inst.nn.name != ""
    ensures var out := ReconcileEntry(w, env, c, inst, e, false);
            out.err.None? && (forall r <- out.results :: IsSuccess(r)) && Live(out.w)
  {
    hide CreateOrUpdate, Valid, Prepared, Remember;
    var p := Prepared(e.rule, env.cfg, inst.nn.ns, inst.spec, e.obj);
    if !Skipped(e, inst.spec) {
      var r := RecipeOf(e.rule, false);
      EngineSucceeds(w, env, c, r, MarkedFor(inst, r, p.value).obj);
    }
  }

  lemma EntryRests(w: World, env: Env, c: Versions, inst: CR, e: Entry)
    requires Valid(w, env.home) && Calm(env, w.calls) && inst.nn.name != ""
    requires Done(w, env.cfg, inst, e)
    ensures var out := ReconcileEntry(w, env, c, inst, e, false);
            && out.err.None? && out.entries == [e] && (forall r <- out.results :: r.op == ResultNone && IsSuccess(r))
            && w.calls <= out.w.calls && out.w == w.(calls := out.w.calls)
  {
    hide CreateOrUpdate, Valid, Prepared, Remember, InSync, CarriesMeta;
    var p := Prepared(e.rule, env.cfg, inst.nn.ns, inst.spec, e.obj);
    if !Skipped(e, inst.spec) {
      EngineRests(w, env, c, RecipeOf(e.rule, false), e.obj);
    }
  }

  /** In one calm pass over a live cluster every entry succeeds. */
  lemma {:induction false} ListSucceeds(w: World, env: Env, c: Versions, inst: CR, es: seq<Entry>)
    requires Valid(w, env.home) && Calm(env, w.calls) && Live(w) && inst.nn.name != ""
    requires forall e <- es :: Preparable(env.cfg, inst, e) && WellKinded(e)
    ensures var out := ReconcileAll(w, env, c, inst, es, false);
            && out.err.None? && (forall r <- out.results :: IsSuccess(r)) && Live(out.w)
            && out.w.cr == w.cr && out.w.others == w.others && w.calls <= out.w.calls
    decreases |es|
  {
    hide ReconcileEntry, Valid, Evolves, Preparable, Live, IsSuccess;
    if es != [] {
      var first := ReconcileEntry(w, env, c, inst, es[0], false);
      assert es[0] in es;
      EntrySucceeds(w, env, c, inst, es[0]);
      EntryKeeps(w, env, c, inst, es[0], false);
      CalmIsQuiet(env, w.calls, w.calls, first.w.calls);
      EntryOnlyKey(w, env, c, inst, es[0]);
      CalmIsQuiet(env, w.calls, first.w.calls, 0);
      ListSucceeds(first.w, env, first.versions, inst, es[1..]);
    }
  }

  /** Over a cluster that is as expected a calm pass reports "unchanged" for everything and writes nothing. */
  lemma {:induction false} ListRests(w: World, env: Env, c: Versions, inst: CR, es: seq<Entry>)
    requires Valid(w, env.home) && Calm(env, w.calls) && inst.nn.name != ""
    requires forall e <- es :: Done(w, env.cfg, inst, e)
    ensures var out := ReconcileAll(w, env, c, inst, es, false);
            && out.err.None? && out.entries == es && (forall r <- out.results :: r.op == ResultNone && IsSuccess(r))
            && w.calls <= out.w.calls && out.w == w.(calls := out.w.calls)
    decreases |es|
  {
    hide ReconcileEntry, Evolves, Present, IsSuccess, Valid;
    if es != [] {
      var first := ReconcileEntry(w, env, c, inst, es[0], false);
      assert es[0] in es;
      EntryRests(w, env, c, inst, es[0]);
      EntryKeeps(w, env, c, inst, es[0], false);
      CalmIsQuiet(env, w.calls, first.w.calls, 0);
      forall e <- es[1..]
        ensures Done(first.w, env.cfg, inst, e)
      {
        assert e in es;
        DoneForCr(w, first.w, env.cfg, inst, inst, e);
      }
      ListRests(first.w, env, first.versions, inst, es[1..]);
    }
  }

  /** The operand writes in an audit log. */
  function ObjTrace(audit: seq<Write>): seq<Write> {
    if audit == [] then []
    else
      var last := audit[|audit| - 1];
      var rest := ObjTrace(audit[..|audit| - 1]);
      if last.CrWritten? || last.CrStatus? then rest else rest + [last]
  }

  lemma CalmStatusWrite(w: World, env: Env, inst: CR, status: Status)
    requires Valid(w, env.home) && Calm(env, w.calls) && w.cr == Some(inst)
    ensures var out := StatusWrite(w, env, inst.(status := status));
            && out.err.None? && out.w.cr == Some(out.inst) && out.inst.status == status
            && SameMeta(out.inst, inst) && out.inst.finalizers == inst.finalizers
            && out.w.objs == w.objs && out.w.others == w.others && ObjTrace(out.w.audit) == ObjTrace(w.audit)
            && out.w.calls == w.calls + 1 && out.w.puts == w.puts
  {
    CalmBegin(w, env);
    hide Begin, Valid;
  }

  /** The CR is ready for a full pass, alone, and its operands are all as expected. */
  ghost predicate Converged(w: World, env: Env, m: Memory) {
    && w.cr.Some? && Ready(w.cr.value) && w.others == 0 && m.lastSpec == w.cr.value.spec
    && forall e <- m.entries :: Done(w, env.cfg, w.cr.value, e)
  }

  lemma DeployConverges(w: World, env: Env, m: Memory, inst: CR)
    requires MemoryOk(w, env, m) && inst.spec == m.lastSpec && inst.spec.deploy && env.home.name != ""
    requires Calm(env, w.calls) && Live(w) && w.cr == Some(inst)
    requires forall e <- m.entries :: Preparable(env.cfg, inst, e)
    ensures var out := Deploy(w, env, m, inst, false);
            && out.verdict == Finished && out.w.cr.Some? && out.w.cr.value.status.phase == Deployed
            && SameMeta(out.w.cr.value, inst) && out.w.cr.value.finalizers == inst.finalizers
            && out.w.others == w.others && out.m.lastSpec == m.lastSpec
  {
    hide Valid, StatusWrite, ReconcileAll, PreStatus, Aggregated, Evolves, DistinctEntries, Preparable, Live, Holds,
         UniqueTypes, Calm;
    var status := PreStatus(env.cfg, inst.status, inst.gen);
    CopyOfStored(w, env.home);
    CalmStatusWrite(w, env, inst, status);
    StatusWriteEffect'(w, env, inst, status);
    var pre := StatusWrite(w, env, inst.(status := status));
    CalmIsQuiet(env, w.calls, pre.w.calls, 0);
    assert Live(pre.w) by { LiveSame(w, pre.w); }
    forall e <- m.entries
      ensures Preparable(env.cfg, pre.inst, e) && WellKinded(e)
    {
      PreparableSame(env.cfg, inst, pre.inst, e);
      assert EntryHonest(w, m.versions, env.cfg, env.home.ns, m.lastSpec, e);
    }
    hide MemoryOk;
    ListSucceeds(pre.w, env, m.versions, pre.inst, m.entries);
    var ops := ReconcileAll(pre.w, env, m.versions, pre.inst, m.entries, false);
    MemoryKept(w, pre.w, env, m);
    OperandsRefine(pre.w, env, m, m, pre.inst);
    CalmIsQuiet(env, w.calls, ops.w.calls, 0);
    var done := Aggregated(env.cfg, pre.inst.status, pre.inst.gen, ops.results);
    AggregationExact(env.cfg, pre.inst.status, pre.inst.gen, ops.results);
    CalmStatusWrite(ops.w, env, pre.inst, done);
  }

  lemma LiveSame(w: World, w': World)
    requires Live(w) && w'.objs == w.objs
    ensures Live(w')
  {
  }

  lemma PreparableSame(cfg: Config, inst: CR, inst': CR, e: Entry)
    requires Preparable(cfg, inst, e) && SameMeta(inst', inst)
    ensures Preparable(cfg, inst', e)
  {
    hide Prepared;
  }

  lemma DeployRests(w: World, env: Env, m: Memory, inst: CR)
    requires MemoryOk(w, env, m) && inst.spec == m.lastSpec && inst.spec.deploy && env.home.name != ""
    requires Calm(env, w.calls) && w.cr == Some(inst) && inst.nn == env.home
    requires forall e <- m.entries :: Done(w, env.cfg, inst, e)
    ensures var out := Deploy(w, env, m, inst, false);
            && out.verdict == Finished && out.w.cr.Some? && out.w.cr.value.status.phase == Deployed
            && SameMeta(out.w.cr.value, inst) && out.w.cr.value.finalizers == inst.finalizers
            && out.w.others == w.others && out.m.lastSpec == m.lastSpec && out.m.entries == m.entries
            && out.w.objs == w.objs && ObjTrace(out.w.audit) == ObjTrace(w.audit)
            && (forall r <- out.results :: r.op == ResultNone)
  {
    hide StatusWrite, ReconcileAll, PreStatus, Aggregated, Evolves, Holds, UniqueTypes, Calm, Done, MemoryOk, Valid;
    var status := PreStatus(env.cfg, inst.status, inst.gen);
    MemoryValid(w, env, m);
    CopyOfStored(w, env.home);
    CalmStatusWrite(w, env, inst, status);
    StatusWriteEffect'(w, env, inst, status);
    var pre := StatusWrite(w, env, inst.(status := status));
    CalmIsQuiet(env, w.calls, pre.w.calls, 0);
    forall e <- m.entries
      ensures Done(pre.w, env.cfg, pre.inst, e)
    {
      DoneForCr(w, pre.w, env.cfg, inst, pre.inst, e);
    }
    ListRests(pre.w, env, m.versions, pre.inst, m.entries);
    var ops := ReconcileAll(pre.w, env, m.versions, pre.inst, m.entries, false);
    MemoryKept(w, pre.w, env, m);
    OperandsRefine(pre.w, env, m, m, pre.inst);
    MemoryValid(ops.w, env, m.(versions := ops.versions, entries := ops.entries));
    CalmIsQuiet(env, w.calls, ops.w.calls, 0);
    var done := Aggregated(env.cfg, pre.inst.status, pre.inst.gen, ops.results);
    AggregationExact(env.cfg, pre.inst.status, pre.inst.gen, ops.results);
    assert forall r <- ops.results :: IsSuccess(r);
    CalmStatusWrite(ops.w, env, pre.inst, done);
  }

  /** A calm pass for a ready CR goes straight to its operands. */
  lemma ReadyPass(w: World, env: Env, m: Memory)
    requires Calm(env, w.calls) && w.cr.Some? && Ready(w.cr.value) && w.others == 0
    ensures var inst := w.cr.value;
            Pass(w, env, m, false)
            == Deploy(w.(calls := w.calls + 2), env, ClearedIfNeeded(m, inst.spec), inst, false)
  {
    hide Deploy, IsPaused;
    CalmBegin(w, env);
    var w1 := GetCr(w, env).w;
    CalmIsQuiet(env, w.calls, w1.calls, 0);
    CalmBegin(w1, env);
    hide Begin;
  }

  lemma SameReady(a: CR, b: CR)
    requires SameMeta(a, b) && a.finalizers == b.finalizers && Ready(b) && a.status.phase != Empty
    ensures Ready(a)
  {
  }

  lemma ValidLater(w: World, env: Env, m: Memory, n: nat)
    requires MemoryOk(w, env, m)
    ensures MemoryOk(w.(calls := n), env, m)
  {
    hide AllHonest, DistinctEntries;
    MemoryKept(w, w.(calls := n), env, m);
  }

  /** The first calm pass makes everything as expected, whatever the cluster looked like, as long as nothing
      in it is being deleted, and the CR is deployed. That it writes at most once at each key holds of every pass:
      Coverage.PassWritesOnce. */
  lemma FirstPassConverges(w: World, env: Env, m: Memory)
    requires MemoryOk(w, env, m) && Calm(env, w.calls) && Live(w) && env.home.name != ""
    requires w.cr.Some? && Ready(w.cr.value) && w.others == 0
    requires forall e <- m.entries :: Preparable(env.cfg, w.cr.value, e)
    ensures var out := Pass(w, env, m, false);
            && out.verdict == Finished && Converged(out.w, env, out.m) && MemoryOk(out.w, env, out.m)
            && out.w.cr.value.status.phase == Deployed && Calm(env, out.w.calls)
            && SameMeta(out.w.cr.value, w.cr.value) && out.w.cr.value.finalizers == w.cr.value.finalizers
            && WrittenBack(env.cfg, out.w.cr.value, m.entries, out.m.entries)
  {
    hide Deploy, Preparable, Done, IsPaused, Valid, AllHonest, DistinctEntries, Ready, Calm, WrittenBack;
    var inst, w2 := w.cr.value, w.(calls := w.calls + 2);
    var m1 := ClearedIfNeeded(m, inst.spec);
    ReadyPass(w, env, m);
    PassRefines(w, env, m, m);
    MemoryClears(w, env, m, inst.spec);
    ValidLater(w, env, m1, w.calls + 2);
    CopyOfStored(w2, env.home);
    CalmIsQuiet(env, w.calls, w2.calls, 0);
    LiveSame(w, w2);
    ReadyFacts(inst);
    DeployConverges(w2, env, m1, inst);
    var out := Deploy(w2, env, m1, inst, false);
    CalmIsQuiet(env, w.calls, w2.calls, out.w.calls);
    DeployCalls(w2, env, m1, inst);
    CalmIsQuiet(env, w.calls, out.w.calls, 0);
    DeployTruthful(w2, env, m1, inst);
    SameReady(out.w.cr.value, inst);
  }

  lemma ReadyFacts(c: CR)
    requires Ready(c)
    ensures c.spec.deploy && c.status.phase != Empty && !c.deleting
  {
  }

  /** From then on every calm pass reports "unchanged" for every resource, writes no operand object, and
      stays deployed. */
  lemma ConvergedPassRests(w: World, env: Env, m: Memory)
    requires MemoryOk(w, env, m) && Calm(env, w.calls) && env.home.name != ""
    requires Converged(w, env, m)
    ensures var out := Pass(w, env, m, false);
            && out.verdict == Finished && Converged(out.w, env, out.m) && MemoryOk(out.w, env, out.m)
            && out.w.cr.value.status.phase == Deployed && Calm(env, out.w.calls)
            && (forall r <- out.results :: r.op == ResultNone)
            && out.w.objs == w.objs && ObjTrace(out.w.audit) == ObjTrace(w.audit) && out.m.entries == m.entries
  {
    hide Deploy, Done, IsPaused, Valid, AllHonest, DistinctEntries, Ready, Calm;
    var inst, w2 := w.cr.value, w.(calls := w.calls + 2);
    var m1 := ClearedIfNeeded(m, inst.spec);
    ReadyPass(w, env, m);
    PassRefines(w, env, m, m);
    ValidLater(w, env, m, w.calls + 2);
    CalmIsQuiet(env, w.calls, w2.calls, 0);
    MemoryValid(w, env, m);
    CopyOfStored(w2, env.home);
    ReadyFacts(inst);
    forall e <- m.entries
      ensures Done(w2, env.cfg, inst, e)
    {
      DoneForCr(w, w2, env.cfg, inst, inst, e);
    }
    CopyHome(w2, env.home, inst);
    DeployRests(w2, env, m1, inst);
    var out := Deploy(w2, env, m1, inst, false);
    DeployCalls(w2, env, m1, inst);
    CalmIsQuiet(env, w.calls, out.w.calls, 0);
    SameReady(out.w.cr.value, inst);
    forall e <- m.entries
      ensures Done(out.w, env.cfg, out.w.cr.value, e)
    {
      DoneForCr(w2, out.w, env.cfg, inst, out.w.cr.value, e);
    }
  }

  lemma {:induction false} RestRun(w: World, env: Env, m: Memory, bundle: seq<Entry>, n: nat)
    requires MemoryOk(w, env, m) && Calm(env, w.calls) && env.home.name != "" && Converged(w, env, m)
    ensures var out := Run(w, env, m, bundle, seq(n, _ => DoPass), false);
            && out.w.objs == w.objs && ObjTrace(out.w.audit) == ObjTrace(w.audit)
            && (forall report <- out.reports :: report.verdict == Finished
                                               && forall r <- report.results :: r.op == ResultNone)
            && Converged(out.w, env, out.m)
    decreases n
  {
    hide Pass, MemoryOk, Converged, Calm;
    if n > 0 {
      ConvergedPassRests(w, env, m);
      var first := Pass(w, env, m, false);
      RestRun(first.w, env, first.m, bundle, n - 1);
      assert seq(n, _ => DoPass)[1..] == seq(n - 1, _ => DoPass);
    }
  }

  /** Convergence: left alone, any number of passes after the first change nothing. */
  lemma Converges(w: World, env: Env, m: Memory, bundle: seq<Entry>, n: nat)
    requires MemoryOk(w, env, m) && Calm(env, w.calls) && Live(w) && env.home.name != ""
    requires w.cr.Some? && Ready(w.cr.value) && w.others == 0
    requires forall e <- m.entries :: Preparable(env.cfg, w.cr.value, e)
    ensures var first := Pass(w, env, m, false);
            var out := Run(first.w, env, first.m, bundle, seq(n, _ => DoPass), false);
            && out.w.objs == first.w.objs && ObjTrace(out.w.audit) == ObjTrace(first.w.audit)
            && (forall report <- out.reports :: forall r <- report.results :: r.op == ResultNone)
            && Converged(out.w, env, out.m)
  {
    hide Pass, MemoryOk, Converged, Calm, Preparable, Ready, Live;
    FirstPassConverges(w, env, m);
    var first := Pass(w, env, m, false);
    RestRun(first.w, env, first.m, bundle, n);
  }

  // ---------- from a CR that was never served ----------

  lemma CalmMetaWrite(w: World, env: Env, inst: CR, fs: seq<string>)
    requires Calm(env, w.calls) && w.cr == Some(inst) && (inst.deleting ==> fs != [])
    ensures var out := MetaWrite(w, env, inst.(finalizers := fs));
            && out.err.None? && out.w.cr == Some(out.inst) && out.inst == inst.(finalizers := fs, rv := out.inst.rv)
            && out.w.objs == w.objs && out.w.others == w.others && out.w.puts == w.puts && out.w.calls == w.calls + 1
  {
    hide Begin;
    CalmBegin(w, env);
  }

  lemma CalmResourceWrite(w: World, env: Env, inst: CR, fs: seq<string>)
    requires Valid(w, env.home) && Calm(env, w.calls) && w.cr == Some(inst) && (inst.deleting ==> fs != [])
    ensures var out := ResourceWrite(w, env, inst.(finalizers := fs));
            && out.err.None? && out.w.cr == Some(out.inst) && SameMeta(out.inst, inst) && out.inst.finalizers == fs
            && out.inst.status.phase == Deploying
            && out.w.objs == w.objs && out.w.others == w.others && out.w.puts == w.puts && out.w.calls == w.calls + 2
  {
    hide MetaWrite, StatusWrite, Valid, Calm, Copy, Kept;
    CopyOfStored(w, env.home);
    MetaWriteKeeps(w, env, inst, fs);
    CalmMetaWrite(w, env, inst, fs);
    var meta := MetaWrite(w, env, inst.(finalizers := fs));
    KeptValid(w, meta.w, env.home);
    CalmIsQuiet(env, w.calls, meta.w.calls, 0);
    CalmStatusWrite(meta.w, env, meta.inst, DeployingStatus(meta.inst.status, meta.inst.gen));
  }

  /** A CR that only has to be initialized, and rid of the old finalizer, to be ready. */
  predicate AlmostReady(c: CR) {
    !c.deleting && !IsPaused(c) && c.spec.deploy
  }

  /** The passes that go by before a full one. */
  function Preliminaries(c: CR): nat {
    (if c.status.phase == Empty then 1 else 0) + (if NeedsMigration(c) then 1 else 0)
  }

  lemma NoMoreOldFinalizer(c: CR)
    ensures !NeedsMigration(AddFinalizer(RemoveFinalizer(c, OLD_FINALIZER), FINALIZER))
    ensures NeedsMigration(AddFinalizer(c, FINALIZER)) == NeedsMigration(c)
  {
    assert FINALIZER != OLD_FINALIZER by { assert |FINALIZER| != |OLD_FINALIZER|; }
  }

  lemma SameFinalizers(a: CR, b: CR)
    requires a.finalizers == b.finalizers
    ensures NeedsMigration(a) == NeedsMigration(b)
  {
  }

  lemma PreliminaryPass(w: World, env: Env, m: Memory)
    requires MemoryOk(w, env, m) && Calm(env, w.calls) && w.cr.Some? && AlmostReady(w.cr.value)
    requires Preliminaries(w.cr.value) > 0
    ensures var out := Pass(w, env, m, false);
            && MemoryOk(out.w, env, out.m) && Calm(env, out.w.calls)
            && out.w.objs == w.objs && out.w.others == w.others && out.m.entries == m.entries && out.results == []
            && out.w.cr.Some? && SameMeta(out.w.cr.value, w.cr.value) && AlmostReady(out.w.cr.value)
            && Preliminaries(out.w.cr.value) == Preliminaries(w.cr.value) - 1
  {
    hide ResourceWrite, ParsesTrue, Valid, AllHonest, DistinctEntries, Without, NeedsMigration;
    PassRefines(w, env, m, m);
    var inst, w1 := w.cr.value, GetCr(w, env).w;
    CalmBegin(w, env);
    CalmIsQuiet(env, w.calls, w1.calls, 0);
    MemoryValid(w, env, m);
    LaterValid(w, env);
    NoMoreOldFinalizer(inst);
    var next := if IsInitialized(inst) then AddFinalizer(RemoveFinalizer(inst, OLD_FINALIZER), FINALIZER)
                else AddFinalizer(inst, FINALIZER);
    CalmResourceWrite(w1, env, inst, next.finalizers);
    assert next == inst.(finalizers := next.finalizers);
    var out := ResourceWrite(w1, env, next);
    SameFinalizers(out.inst, next);
    CalmIsQuiet(env, w.calls, out.w.calls, 0);
    hide Begin, Calm;
  }

  /** Convergence from any CR that is neither paused, nor gated off, nor being deleted, initialized or not: after
      at most two preliminary passes the next one makes everything as expected and the CR deployed, and all
      later ones report "unchanged" for every resource and write no operand object. */
  lemma {:induction false} FreshConverges(w: World, env: Env, m: Memory, bundle: seq<Entry>, n: nat)
    requires MemoryOk(w, env, m) && Calm(env, w.calls) && Live(w) && env.home.name != ""
    requires w.cr.Some? && AlmostReady(w.cr.value) && w.others == 0
    requires forall e <- m.entries :: Preparable(env.cfg, w.cr.value, e)
    ensures var ready := Run(w, env, m, bundle, seq(Preliminaries(w.cr.value), _ => DoPass), false);
            var first := Pass(ready.w, env, ready.m, false);
            var out := Run(first.w, env, first.m, bundle, seq(n, _ => DoPass), false);
            && Preliminaries(w.cr.value) <= 2 && ready.w.objs == w.objs
            && first.verdict == Finished && Converged(first.w, env, first.m)
            && first.w.cr.value.status.phase == Deployed
            && out.w.objs == first.w.objs && ObjTrace(out.w.audit) == ObjTrace(first.w.audit)
            && (forall report <- out.reports :: forall r <- report.results :: r.op == ResultNone)
    decreases Preliminaries(w.cr.value)
  {
    hide Pass, MemoryOk, Converged, Calm, Preparable, Live, IsPaused;
    var p := Preliminaries(w.cr.value);
    if p == 0 {
      assert Ready(w.cr.value);
      FirstPassConverges(w, env, m);
      Converges(w, env, m, bundle, n);
    } else {
      PreliminaryPass(w, env, m);
      var next := Pass(w, env, m, false);
      LiveSame(w, next.w);
      forall e <- next.m.entries
        ensures Preparable(env.cfg, next.w.cr.value, e)
      {
        PreparableSame(env.cfg, w.cr.value, next.w.cr.value, e);
      }
      FreshConverges(next.w, env, next.m, bundle, n);
      assert seq(p, _ => DoPass)[1..] == seq(p - 1, _ => DoPass);
    }
  }

  // ---------- an example ----------

  function ExampleEnv(cfg: Config): Env {
    Env(_ => Turn([], Served, true), Name("tasks", "operator"), cfg)
  }

  const EXAMPLE_BUNDLE := [
    Entry(PConfigMap, Obj(ConfigMap, "settings", "", true, 0, 0, 0, map[], map[], [], [], false, NO_PAYLOAD))]

  const EXAMPLE_CR := CR(Name("tasks", "operator"), 1, 1, 1, None, map[], [FINALIZER], false,
                         Spec("pipelines", None, true), INITIAL_STATUS.(phase := Deploying))

  const EXAMPLE_WORLD := World(map[], [], Some(EXAMPLE_CR), 0, 2, 2, 0, 0, [], [])

  /** The assumptions of the results above can be met: from an empty cluster with a ready CR, the example's
      first pass stores its one object, and later passes change nothing. */
  lemma ExampleConverges(cfg: Config, n: nat)
    ensures var env := ExampleEnv(cfg);
            var first := Pass(EXAMPLE_WORLD, env, Booted(EXAMPLE_BUNDLE), false);
            var out := Run(first.w, env, first.m, EXAMPLE_BUNDLE, seq(n, _ => DoPass), false);
            && Key(ConfigMap, "pipelines", "settings") in first.w.objs
            && out.w.objs == first.w.objs && first.w.cr.Some? && first.w.cr.value.status.phase == Deployed
  {
    var env, w, m := ExampleEnv(cfg), EXAMPLE_WORLD, Booted(EXAMPLE_BUNDLE);
    assert MemoryOk(w, env, m) by { BootedOk(w, env, m, EXAMPLE_BUNDLE); }
    var e := EXAMPLE_BUNDLE[0];
    assert Expected(EXAMPLE_CR, cfg, e).Some? && Ready(EXAMPLE_CR) && Calm(env, 0) && Live(w);
    hide Pass, Run, MemoryOk, Calm, Ready, Live;
    FirstPassConverges(w, env, m);
    Converges(w, env, m, EXAMPLE_BUNDLE, n);
    ExampleStored(cfg);
  }

  lemma ExampleStored(cfg: Config)
    requires var first := Pass(EXAMPLE_WORLD, ExampleEnv(cfg), Booted(EXAMPLE_BUNDLE), false);
             && Converged(first.w, ExampleEnv(cfg), first.m) && SameMeta(first.w.cr.value, EXAMPLE_CR)
             && WrittenBack(cfg, first.w.cr.value, EXAMPLE_BUNDLE, first.m.entries)
    ensures Key(ConfigMap, "pipelines", "settings") in Pass(EXAMPLE_WORLD, ExampleEnv(cfg), Booted(EXAMPLE_BUNDLE),
        false).w.objs
  {
    hide Pass;
    var first := Pass(EXAMPLE_WORLD, ExampleEnv(cfg), Booted(EXAMPLE_BUNDLE), false);
    var c, e, d := first.w.cr.value, EXAMPLE_BUNDLE[0], first.m.entries[0];
    assert !Skipped(e, c.spec) && d.rule == e.rule && Expected(c, cfg, e) == Some(d.obj);
    ExpectedKey(c, cfg, e);
    assert d in first.m.entries && Done(first.w, cfg, c, d);
  }

  // ---------- immutable specs ----------

  /** No object at this key is being deleted. */
  ghost predicate LiveAt(w: World, k: Key) {
    k in w.objs ==> !w.objs[k].terminating
  }

  /** The payload of an immutable resource has to change. */
  predicate MustReplace(w: World, env: Env, c: Versions, r: Recipe, x: Obj) {
    && KeyOf(x) in w.objs
    && var o := Decode(w, env, w.objs[KeyOf(x)]);
       Mutated(r, env.cfg, x, o, Hit(c, o)).payload != o.payload
  }

  lemma CalmDeleteMarks(w: World, env: Env, k: Key)
    requires Calm(env, w.calls) && k in w.objs && !w.objs[k].terminating
    ensures var r := DeleteObject(w, env, k);
            && r.res.Ok? && r.w.calls == w.calls + 1
            && (if w.objs[k].finalizers == [] then k !in r.w.objs else k in r.w.objs && r.w.objs[k].terminating)
  {
    hide Begin;
    CalmBegin(w, env);
  }

  lemma CalmCreateAt(w: World, env: Env, o: Obj)
    requires Calm(env, w.calls) && KeyOf(o) !in w.objs
    ensures var r := CreateObj(w, env, o);
            && r.res.Ok? && !r.res.value.terminating && r.w.calls == w.calls + 1 && LiveAt(r.w, KeyOf(o))
  {
    hide Begin;
    CalmBegin(w, env);
  }

  lemma CalmUpdateAt(w: World, env: Env, o: Obj)
    requires Calm(env, w.calls) && Snapshot(w, o) && !o.terminating
    ensures var r := UpdateObj(w, env, o);
            && r.res.Ok? && !r.res.value.terminating && r.w.calls == w.calls + 1 && LiveAt(r.w, KeyOf(o))
  {
    hide Begin;
    CalmBegin(w, env);
  }

  /** A run for an immutable resource deletes exactly if the payload has to change; the object is gone then, or
      held by its finalizers. */
  lemma ImmutableStep(w: World, env: Env, c: Versions, r: Recipe, x: Obj)
    requires Valid(w, env.home) && Calm(env, w.calls) && LiveAt(w, KeyOf(x)) && r.immutable
    ensures var out, k := CreateOrUpdate(w, env, c, r, x), KeyOf(x);
            && out.res.Ok? && !out.found.terminating && w.calls < out.w.calls
            && (out.res.value == ResultDeleted <==> MustReplace(w, env, c, r, x))
            && (out.res.value != ResultDeleted ==> LiveAt(out.w, k))
            && (out.res.value == ResultDeleted ==>
                  if w.objs[k].finalizers == [] then k !in out.w.objs else k in out.w.objs && out.w.objs[k].terminating)
            && (k !in w.objs ==> out.res.value == ResultCreated)
  {
    hide Mutated, Hit, Valid, GetObj, CreateObj, UpdateObj, DeleteObject, Calm;
    CalmGet(w, env, KeyOf(x));
    var got := GetObj(w, env, KeyOf(x));
    CalmIsQuiet(env, w.calls, got.w.calls, 0);
    if got.res.Err? {
      MutationKeepsKey(r, env.cfg, x, Blank(x), Hit(c, Blank(x)));
      CalmCreateAt(got.w, env, Mutated(r, env.cfg, x, Blank(x), Hit(c, Blank(x))));
    } else {
      var hit := Hit(c, got.res.value);
      var next := Mutated(r, env.cfg, x, got.res.value, hit);
      ReadKey(w, env, KeyOf(x));
      MutationKeepsSnapshot(got.w, r, env.cfg, x, got.res.value, hit);
      CalmUpdateAt(got.w, env, next);
      CalmDeleteMarks(got.w, env, KeyOf(x));
    }
  }

  /** One run of the engine together with what the cache remembers of it. */
  function Remembered(w: World, env: Env, c: Versions, r: Recipe, x: Obj): Versions
  {
    var out := CreateOrUpdate(w, env, c, r, x);
    if out.res.Ok? then Remember(c, out.found, out.res.value) else c
  }

  lemma RunSettles(w: World, env: Env, c: Versions, r: Recipe, x: Obj)
    requires Valid(w, env.home) && Named(c) && Honest(w, c, r.update, env.cfg, x) && Suits(r.update, x.kind)
    ensures var out := CreateOrUpdate(w, env, c, r, x);
            && Valid(out.w, env.home) && Named(Remembered(w, env, c, r, x))
            && Honest(out.w, Remembered(w, env, c, r, x), r.update, env.cfg, x)
            && (out.res.Ok? && out.res.value != ResultDeleted && !out.found.terminating ==>
                  && KeyOf(x) in out.w.objs && !out.w.objs[KeyOf(x)].terminating
                  && InSync(r.update, env.cfg, x, out.w.objs[KeyOf(x)]) && CarriesMeta(x, out.w.objs[KeyOf(x)]))
  {
    hide CreateOrUpdate, Valid, Named, Honest, InSync, CarriesMeta, Remember, Evolves;
    var out := CreateOrUpdate(w, env, c, r, x);
    EngineSettles(w, env, c, r, x);
    EvolvesObjs(w, out.w);
    HonestEvolves(w, out.w, env.home, c, c, r.update, env.cfg, x);
    if out.res.Ok? {
      RememberTouchesOne(c, out.found, out.res.value);
      RememberHonest(out.w, env.home, c, r, env.cfg, x, out);
      if out.res.value != ResultDeleted && !out.found.terminating {
        SettledIsPresent(r, env.cfg, x, out);
      }
    }
  }

  /** The cluster once nothing holds the object at this key any more, if it is being deleted. */
  function LetGo(w: World, k: Key): World {
    if k in w.objs && w.objs[k].terminating then w.(objs := w.objs - {k}) else w
  }

  lemma LetGoKeeps(w: World, home: Name, c: Versions, u: UpdateFunc, cfg: Config, x: Obj)
    requires Valid(w, home) && Honest(w, c, u, cfg, x)
    ensures var w' := LetGo(w, KeyOf(x));
            && Valid(w', home) && Honest(w', c, u, cfg, x) && LiveAt(w', KeyOf(x)) && w'.calls == w.calls
  {
    hide InSync;
  }

  /** While finalizers hold the object, runs wait: they report it as being deleted and write nothing. */
  lemma ImmutableWaits(w: World, env: Env, c: Versions, r: Recipe, x: Obj)
    requires Valid(w, env.home) && Calm(env, w.calls) && KeyOf(x) in w.objs && w.objs[KeyOf(x)].terminating
    ensures var out := CreateOrUpdate(w, env, c, r, x);
            out.res == Ok(ResultNone) && out.found.terminating && out.w == w.(calls := w.calls + 1)
  {
    hide Hit, Valid, ApplyUpdate;
    CalmGet(w, env, KeyOf(x));
    hide GetObj;
  }

  /** A resource with an immutable spec converges in at most two writing runs, from any object that is not being
      deleted: the first deletes it exactly if its payload has to change; while finalizers hold it nothing is
      written; once they let go, or at once if there are none, the next run creates it, and the one after that
      finds nothing to do. */
  lemma ImmutableConverges(w: World, env: Env, c: Versions, r: Recipe, x: Obj)
    requires Valid(w, env.home) && Calm(env, w.calls) && LiveAt(w, KeyOf(x)) && r.immutable
    requires Named(c) && Honest(w, c, r.update, env.cfg, x) && Suits(r.update, x.kind)
    ensures var one := CreateOrUpdate(w, env, c, r, x);
            var c1 := Remembered(w, env, c, r, x);
            var freed := LetGo(one.w, KeyOf(x));
            var two := CreateOrUpdate(freed, env, c1, r, x);
            var three := CreateOrUpdate(two.w, env, Remembered(freed, env, c1, r, x), r, x);
            && one.res.Ok?
            && (one.res.value == ResultDeleted <==> MustReplace(w, env, c, r, x))
            && (freed != one.w ==>
                  && one.res.value == ResultDeleted && w.objs[KeyOf(x)].finalizers != []
                  && CreateOrUpdate(one.w, env, c1, r, x).w == one.w.(calls := one.w.calls + 1))
            && two.res == Ok(if one.res.value == ResultDeleted then ResultCreated else ResultNone)
            && three.res == Ok(ResultNone)
            && three.w.objs == two.w.objs && ObjTrace(three.w.audit) == ObjTrace(two.w.audit)
  {
    hide CreateOrUpdate, Valid, Named, Honest, InSync, CarriesMeta, Remembered, Evolves, Calm, MustReplace;
    var one := CreateOrUpdate(w, env, c, r, x);
    var c1 := Remembered(w, env, c, r, x);
    ImmutableStep(w, env, c, r, x);
    RunSettles(w, env, c, r, x);
    CalmIsQuiet(env, w.calls, one.w.calls, 0);
    var freed := LetGo(one.w, KeyOf(x));
    if freed != one.w {
      ImmutableWaits(one.w, env, c1, r, x);
    }
    LetGoKeeps(one.w, env.home, c1, r.update, env.cfg, x);
    var two := CreateOrUpdate(freed, env, c1, r, x);
    var c2 := Remembered(freed, env, c1, r, x);
    ImmutableStep(freed, env, c1, r, x);
    RunSettles(freed, env, c1, r, x);
    CalmIsQuiet(env, w.calls, two.w.calls, 0);
    if one.res.value != ResultDeleted {
      EngineRests(freed, env, c1, r, x);
    }
    EngineRests(two.w, env, c2, r, x);
  }

  // ---------- where the cache needs distinct keys ----------

  lemma UpdateIsNoopExactly(u: UpdateFunc, cfg: Config, x: Obj, o: Obj)
    ensures InSync(u, cfg, x, o) <==> ApplyUpdate(u, cfg, x, Merged(x, o)) == Merged(x, o)
  {
    if InSync(u, cfg, x, o) {
      SyncedUpdateIsNoop(u, cfg, x, o);
    } else if o.payload == SyncedPayload(u, cfg, x.payload, o.payload) {
      assert (o.labels + x.labels).Keys == o.labels.Keys + x.labels.Keys;
      assert (o.annotations + x.annotations).Keys == o.annotations.Keys + x.annotations.Keys;
    }
  }

  /** On an object that the cache knows, the engine does what it would do without the cache exactly if the
      object is in sync with what is expected now. */
  lemma CacheAgreesExactly(w: World, env: Env, c: Versions, r: Recipe, x: Obj)
    requires Valid(w, env.home) && Calm(env, w.calls) && KeyOf(x) in w.objs && !w.objs[KeyOf(x)].terminating
    requires !r.always && !r.immutable && Hit(c, Decode(w, env, w.objs[KeyOf(x)]))
    ensures CreateOrUpdate(w, env, c, r, x) == CreateOrUpdate(w, env, c, r.(always := true), x)
       <==> InSync(r.update, env.cfg, x, w.objs[KeyOf(x)])
  {
    hide Hit, Valid, InSync, ApplyUpdate, Merged, UpdateObj, DeleteObject, CreateObj;
    CalmBegin(w, env);
    var o, got := Decode(w, env, w.objs[KeyOf(x)]), GetObj(w, env, KeyOf(x));
    assert got.w == w.(calls := w.calls + 1) && got.res == Ok(o);
    hide Begin, GetObj;
    ReadKey(w, env, KeyOf(x));
    var next, next' := Merged(x, o), ApplyUpdate(r.update, env.cfg, x, Merged(x, o));
    assert next == Mutated(r, env.cfg, x, o, true) && next' == Mutated(r.(always := true), env.cfg, x, o, true);
    InSyncDecoded(r.update, env.cfg, x, w.objs[KeyOf(x)], o);
    UpdateIsNoopExactly(r.update, env.cfg, x, o);
    GetKeeps(w, env, KeyOf(x));
    LaterValid(w, env);
    if next != next' {
      assert Snapshot(got.w, o);
      MutationKeepsSnapshot(got.w, r, env.cfg, x, o, true);
      MutationKeepsSnapshot(got.w, r.(always := true), env.cfg, x, o, true);
      CalmIsQuiet(env, w.calls, got.w.calls, 0);
      CalmUpdate(got.w, env, next);
      CalmUpdate(got.w, env, next');
      DifferentContent(r, env.cfg, x, o);
    }
  }

  lemma InSyncDecoded(u: UpdateFunc, cfg: Config, x: Obj, o: Obj, found: Obj)
    requires found == o.(typed := found.typed)
    ensures InSync(u, cfg, x, found) == InSync(u, cfg, x, o)
  {
  }

  lemma LaterValid(w: World, env: Env)
    requires Valid(w, env.home)
    ensures Valid(w.(calls := w.calls + 1), env.home)
  {
  }

  lemma CalmUpdate(w: World, env: Env, o: Obj)
    requires Valid(w, env.home) && Calm(env, w.calls) && Snapshot(w, o)
    ensures UpdateObj(w, env, o).res.Ok? && SameContent(UpdateObj(w, env, o).res.value, o)
  {
    CalmBegin(w, env);
    hide Begin, Valid;
    UpdatedAsSent(w, env, o);
  }

  lemma DifferentContent(r: Recipe, cfg: Config, x: Obj, o: Obj)
    requires ApplyUpdate(r.update, cfg, x, Merged(x, o)) != Merged(x, o)
    ensures !SameContent(ApplyUpdate(r.update, cfg, x, Merged(x, o)), Merged(x, o))
  {
  }

  /** On a version that the cache knows the engine leaves the payload alone. */
  lemma KnownPayloadStays(w: World, env: Env, c: Versions, r: Recipe, x: Obj)
    requires Valid(w, env.home) && Calm(env, w.calls) && KeyOf(x) in w.objs && !w.objs[KeyOf(x)].terminating
    requires !r.always && !r.immutable && Hit(c, Decode(w, env, w.objs[KeyOf(x)]))
    ensures var out := CreateOrUpdate(w, env, c, r, x);
            KeyOf(x) in out.w.objs && out.w.objs[KeyOf(x)].payload == w.objs[KeyOf(x)].payload
  {
    hide Hit, Valid, GetObj, UpdateObj, DeleteObject, CreateObj, ApplyUpdate, Calm;
    CalmGet(w, env, KeyOf(x));
    ReadKey(w, env, KeyOf(x));
    var got := GetObj(w, env, KeyOf(x));
    CalmIsQuiet(env, w.calls, got.w.calls, 0);
    LaterValid(w, env);
    MutationKeepsSnapshot(got.w, r, env.cfg, x, got.res.value, true);
    var next := Mutated(r, env.cfg, x, got.res.value, true);
    assert next.payload == w.objs[KeyOf(x)].payload;
    StoredAsSent(got.w, env, next);
  }

  lemma StoredAsSent(w: World, env: Env, o: Obj)
    requires Calm(env, w.calls) && Snapshot(w, o) && !o.terminating
    ensures var r := UpdateObj(w, env, o); KeyOf(o) in r.w.objs && r.w.objs[KeyOf(o)].payload == o.payload
  {
    hide Begin;
    CalmBegin(w, env);
  }

  /** Two entries at one key: right after the object was synced for the one, the cache knows its version. When
      the other one is reconciled, the payload of the first stays stored; so the cache agrees with calling the
      update function exactly if the two entries have the same payload. */
  lemma DuplicateKeysDefeatCache(w: World, env: Env, c: Versions, r: Recipe, x: Obj, y: Obj)
    requires Valid(w, env.home) && Calm(env, w.calls) && Live(w) && Named(c)
    requires AllTyped(env, w.calls)
    requires r.update.CopyPayload? && !r.always && !r.immutable && Honest(w, c, r.update, env.cfg, x)
    requires KeyOf(x) == KeyOf(y)
    ensures var one := CreateOrUpdate(w, env, c, r, x);
            && one.res.Ok?
            && var c1 := Remember(c, one.found, one.res.value);
               var two := CreateOrUpdate(one.w, env, c1, r, y);
               && (two == CreateOrUpdate(one.w, env, c1, r.(always := true), y) <==> x.payload == y.payload)
               && KeyOf(y) in two.w.objs && two.w.objs[KeyOf(y)].payload == x.payload
  {
    hide CreateOrUpdate, Valid, Named, Honest, CarriesMeta, Evolves, Remember;
    var one := CreateOrUpdate(w, env, c, r, x);
    EngineSucceeds(w, env, c, r, x);
    EngineSettles(w, env, c, r, x);
    EngineTyped(w, env, c, r, x);
    CalmIsQuiet(env, w.calls, one.w.calls, 0);
    SettledIsPresent(r, env.cfg, x, one);
    RememberedHits(one.w, env, c, one, KeyOf(x));
    CacheAgreesExactly(one.w, env, Remember(c, one.found, one.res.value), r, y);
    KnownPayloadStays(one.w, env, Remember(c, one.found, one.res.value), r, y);
  }

  /** Every answer comes with its TypeMeta filled in. */
  ghost predicate AllTyped(env: Env, lo: nat) {
    forall n: nat | lo <= n :: env.turn(n).typed
  }

  lemma AnswersTyped(w: World, env: Env, o: Obj)
    requires AllTyped(env, w.calls)
    ensures GetObj(w, env, KeyOf(o)).res.Ok? ==> GetObj(w, env, KeyOf(o)).res.value.typed
    ensures CreateObj(w, env, o).res.Ok? ==> CreateObj(w, env, o).res.value.typed
    ensures UpdateObj(w, env, o).res.Ok? && o.typed ==> UpdateObj(w, env, o).res.value.typed
  {
    hide Begin, Insert, Overwrite;
  }

  lemma EngineTyped(w: World, env: Env, c: Versions, r: Recipe, x: Obj)
    requires Valid(w, env.home) && AllTyped(env, w.calls)
    ensures var out := CreateOrUpdate(w, env, c, r, x);
            && w.calls <= out.w.calls
            && (out.res.Ok? && out.res.value != ResultDeleted ==> out.found.typed)
  {
    hide GetObj, CreateObj, UpdateObj, DeleteObject, Valid, Hit, Evolves, Mutated;
    var got := GetObj(w, env, KeyOf(x));
    EngineCalls(w, env, c, r, x);
    AnswersTyped(w, env, x);
    if got.res.Err? {
      AnswersTyped(got.w, env, Mutated(r, env.cfg, x, Blank(x), Hit(c, Blank(x))));
    } else {
      var next := Mutated(r, env.cfg, x, got.res.value, Hit(c, got.res.value));
      MutatedTyped(r, env.cfg, x, got.res.value, Hit(c, got.res.value));
      AnswersTyped(got.w, env, next);
    }
  }

  lemma MutatedTyped(r: Recipe, cfg: Config, x: Obj, found: Obj, hit: bool)
    ensures Mutated(r, cfg, x, found, hit).typed == found.typed
  {
  }

  lemma RememberedHits(w: World, env: Env, c: Versions, out: EngineOut, k: Key)
    requires Valid(w, env.home) && out.w == w && k in w.objs && out.res.Ok? && out.res.value != ResultDeleted
    requires out.found == w.objs[k].(typed := out.found.typed) && out.found.typed && !out.found.terminating
    requires env.turn(w.calls).typed
    ensures Hit(Remember(c, out.found, out.res.value), Decode(w, env, w.objs[k]))
  {
  }
}

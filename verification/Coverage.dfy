/** What an operator process writes, its cleanup looks up again, unless the object was moved. */
module Coverage {
  import opened Kube
  import opened ApiServer
  import opened Labels
  import opened Cache
  import opened Ownership
  import opened Resource
  import opened Operands
  import opened StatusReport
  import opened Controller
  import opened Tracking
  import opened Expectations
  import opened CacheRefinement
  import opened Convergence
  import opened Pausing
  import opened Cleaning
  import opened Runs

  /** The namespace that a spec gives to the objects of a kind; the other kinds do not depend on the spec. */
  function Place(kind: Kind, ns: string, spec: Spec): string {
    match kind
    case Task => if spec.tasksNs.Some? && spec.tasksNs.value != "" then spec.tasksNs.value else ns
    case Pipeline => spec.pipelinesNs
    case ConfigMap => spec.pipelinesNs
    case _ => ""
  }

  /** No spec moves objects of this kind. */
  predicate Fixed(kind: Kind) {
    kind != Task && kind != Pipeline && kind != ConfigMap
  }

  lemma TargetPlace(ns: string, a: Spec, b: Spec, e: Entry)
    ensures Fixed(KindOf(e.rule)) ==> TargetKey(ns, a, e) == TargetKey(ns, b, e)
    ensures !Fixed(KindOf(e.rule)) ==>
              TargetKey(ns, a, e) == Key(KindOf(e.rule), Place(KindOf(e.rule), ns, a), e.obj.name)
  {
  }

  /** A list entry that names the object it stands for in this place. */
  predicate InPlace(ns: string, spec: Spec, e: Entry) {
    KeyOf(e.obj) == TargetKey(ns, spec, e)
  }

  /** The operator put an object into the cluster or changed one. */
  predicate WritesObj(e: Write) {
    e.ObjCreated? || e.ObjUpdated?
  }

  /** Some entry names this key. */
  ghost predicate NamedBy(ns: string, spec: Spec, es: seq<Entry>, k: Key) {
    exists i :: 0 <= i < |es| && InPlace(ns, spec, es[i]) && KeyOf(es[i].obj) == k
  }

  // ---------- one entry ----------

  /** The log grows by at most one event, about this key. */
  ghost predicate LogsOnly(audit: seq<Write>, audit': seq<Write>, k: Key) {
    || audit' == audit
    || (&& |audit'| == |audit| + 1 && audit'[..|audit|] == audit
        && var e := audit'[|audit|];
           (e.ObjCreated? || e.ObjUpdated? || e.ObjDeleted?) && e.key == k)
  }

  lemma CallsLog(w: World, env: Env, o: Obj)
    requires Valid(w, env.home)
    ensures GetObj(w, env, KeyOf(o)).w.audit == w.audit
    ensures LogsOnly(w.audit, CreateObj(w, env, o).w.audit, KeyOf(o))
    ensures LogsOnly(w.audit, UpdateObj(w, env, o).w.audit, KeyOf(o))
    ensures LogsOnly(w.audit, DeleteObject(w, env, KeyOf(o)).w.audit, KeyOf(o))
  {
    hide Begin, Valid, Evolves;
    BeginKeeps(w, env);
  }

  lemma EngineLogs(w: World, env: Env, c: Versions, r: Recipe, x: Obj)
    requires Valid(w, env.home)
    ensures LogsOnly(w.audit, CreateOrUpdate(w, env, c, r, x).w.audit, KeyOf(x))
  {
    hide GetObj, CreateObj, UpdateObj, DeleteObject, Mutated, Hit, Blank, Valid, Evolves;
    var k := KeyOf(x);
    var got := GetObj(w, env, k);
    GetKeeps(w, env, k);
    CallsLog(w, env, x);
    if got.res.Err? {
      var made := Mutated(r, env.cfg, x, Blank(x), Hit(c, Blank(x)));
      MutationKeepsKey(r, env.cfg, x, Blank(x), Hit(c, Blank(x)));
      assert KeyOf(Blank(x)) == k by { BlankKey(x); }
      CallsLog(got.w, env, made);
    } else {
      var next := Mutated(r, env.cfg, x, got.res.value, Hit(c, got.res.value));
      MutationKeepsKey(r, env.cfg, x, got.res.value, Hit(c, got.res.value));
      ReadKey(w, env, k);
      CallsLog(got.w, env, next);
    }
  }

  lemma BlankKey(x: Obj)
    ensures KeyOf(Blank(x)) == KeyOf(x)
  {
  }

  /** The entry keeps its rule and its name, and its place or takes the one of this spec. */
  predicate Moved(ns: string, spec: Spec, e: Entry, d: Entry) {
    && WellKinded(d) && d.rule == e.rule && d.obj.name == e.obj.name
    && (KeyOf(d.obj) == KeyOf(e.obj) || KeyOf(d.obj) == TargetKey(ns, spec, e))
  }

  lemma MovedInPlace(ns: string, a: Spec, b: Spec, e: Entry, d: Entry)
    requires WellKinded(e) && Moved(ns, b, e, d)
    ensures Identity(ns, d) == Identity(ns, e)
    ensures KeyOf(d.obj) == TargetKey(ns, b, e) ==> InPlace(ns, b, d)
    ensures Fixed(KindOf(e.rule)) && InPlace(ns, a, e) ==> InPlace(ns, a, d) && KeyOf(d.obj) == KeyOf(e.obj)
  {
    TargetPlace(ns, a, b, e);
  }

  /** Reconciling an entry writes only at the key that the entry names afterwards, also if it fails; and an
      entry that was in place stays there. */
  lemma EntryLogs(w: World, env: Env, c: Versions, inst: CR, e: Entry)
    requires Valid(w, env.home) && WellKinded(e)
    ensures var out := ReconcileEntry(w, env, c, inst, e, false);
            var d := out.entries[0];
            && Moved(inst.nn.ns, inst.spec, e, d)
            && LogsOnly(w.audit, out.w.audit, KeyOf(d.obj))
            && (out.w.audit != w.audit ==>
                  InPlace(inst.nn.ns, inst.spec, d) && KeyOf(d.obj) == TargetKey(inst.nn.ns, inst.spec, e))
            && (InPlace(inst.nn.ns, inst.spec, e) ==>
                  InPlace(inst.nn.ns, inst.spec, d) && KeyOf(d.obj) == KeyOf(e.obj))
  {
    hide CreateOrUpdate, Valid, Prepared, Remember, MarkedFor;
    var p := Prepared(e.rule, env.cfg, inst.nn.ns, inst.spec, e.obj);
    if !Skipped(e, inst.spec) && p.Some? {
      PreparedKey(env.cfg, inst.nn.ns, inst.spec, e);
      var r := RecipeOf(e.rule, false);
      MarkedKeepsPayload(inst, r, p.value);
      var m := MarkedFor(inst, r, p.value);
      EngineLogs(w, env, c, r, m.obj);
      StaysInPlace(inst.nn.ns, inst.spec, e, m.obj);
    }
  }

  lemma StaysInPlace(ns: string, spec: Spec, e: Entry, o: Obj)
    requires WellKinded(e) && KeyOf(o) == TargetKey(ns, spec, e)
    ensures InPlace(ns, spec, Entry(e.rule, o)) && Moved(ns, spec, e, Entry(e.rule, o))
  {
  }

  // ---------- a list of entries ----------

  ghost predicate AllWellKinded(es: seq<Entry>) {
    forall e <- es :: WellKinded(e)
  }

  ghost predicate AllMoved(ns: string, spec: Spec, es: seq<Entry>, es': seq<Entry>) {
    && |es'| == |es|
    && forall j | 0 <= j < |es| :: Moved(ns, spec, es[j], es'[j])
  }

  /** Every object that was written is named, in its place, by an entry afterwards. */
  ghost predicate WritesNamed(ns: string, spec: Spec, audit: seq<Write>, audit': seq<Write>, es: seq<Entry>) {
    && audit <= audit'
    && forall i | |audit| <= i < |audit'| :: WritesObj(audit'[i]) ==> NamedBy(ns, spec, es, audit'[i].key)
  }

  lemma NothingMoved(ns: string, spec: Spec, es: seq<Entry>)
    requires AllWellKinded(es)
    ensures AllMoved(ns, spec, es, es)
  {
  }

  lemma MovedKinds(ns: string, spec: Spec, es: seq<Entry>, es': seq<Entry>)
    requires AllMoved(ns, spec, es, es')
    ensures AllWellKinded(es')
  {
  }

  lemma MovedDistinct(ns: string, spec: Spec, es: seq<Entry>, es': seq<Entry>)
    requires AllWellKinded(es) && AllMoved(ns, spec, es, es')
    ensures DistinctEntries(ns, es) ==> DistinctEntries(ns, es')
  {
    hide Identity, Moved, WellKinded;
    forall j | 0 <= j < |es|
      ensures Identity(ns, es'[j]) == Identity(ns, es[j])
    {
      assert es[j] in es;
      MovedInPlace(ns, spec, spec, es[j], es'[j]);
    }
  }

  lemma NamedFirst(ns: string, spec: Spec, d: Entry, rest: seq<Entry>, a: seq<Write>, b: seq<Write>, c: seq<Write>)
    requires LogsOnly(a, b, KeyOf(d.obj)) && (b != a ==> InPlace(ns, spec, d)) && WritesNamed(ns, spec, b, c, rest)
    ensures WritesNamed(ns, spec, a, c, [d] + rest)
  {
    hide InPlace;
    var es := [d] + rest;
    forall i | |a| <= i < |c| && WritesObj(c[i])
      ensures NamedBy(ns, spec, es, c[i].key)
    {
      if i < |b| {
        assert c[i] == b[i] && InPlace(ns, spec, es[0]);
      } else {
        var j :| 0 <= j < |rest| && InPlace(ns, spec, rest[j]) && KeyOf(rest[j].obj) == c[i].key;
        assert es[j + 1] == rest[j];
      }
    }
  }

  /** Reconciling a list, even if it stops at an error midway: each entry stays where it was or goes to its place,
      and every object that was written is named by an entry. */
  lemma {:induction false} ListMoves(w: World, env: Env, c: Versions, inst: CR, es: seq<Entry>)
    requires Valid(w, env.home) && AllWellKinded(es)
    ensures var out := ReconcileAll(w, env, c, inst, es, false);
            && AllMoved(inst.nn.ns, inst.spec, es, out.entries)
            && WritesNamed(inst.nn.ns, inst.spec, w.audit, out.w.audit, out.entries)
    decreases |es|
  {
    hide ReconcileEntry, Valid, Evolves, Moved, WellKinded, LogsOnly, InPlace, WritesNamed;
    var ns, spec := inst.nn.ns, inst.spec;
    if es == [] {
      NamedNothing(ns, spec, w.audit, []);
    } else {
      var first := ReconcileEntry(w, env, c, inst, es[0], false);
      var d := first.entries[0];
      assert first.entries == [d] && es[0] in es;
      EntryKeeps(w, env, c, inst, es[0], false);
      EntryLogs(w, env, c, inst, es[0]);
      if first.err.None? {
        ListMoves(first.w, env, first.versions, inst, es[1..]);
        var rest := ReconcileAll(first.w, env, first.versions, inst, es[1..], false);
        NamedFirst(ns, spec, d, rest.entries, w.audit, first.w.audit, rest.w.audit);
      } else {
        NothingMoved(ns, spec, es[1..]);
        NamedNothing(ns, spec, first.w.audit, es[1..]);
        NamedFirst(ns, spec, d, es[1..], w.audit, first.w.audit, first.w.audit);
      }
    }
  }

  lemma NamedNothing(ns: string, spec: Spec, audit: seq<Write>, es: seq<Entry>)
    ensures WritesNamed(ns, spec, audit, audit, es)
  {
  }

  // ---------- what writes no operand object ----------

  /** No object was put into the cluster or changed. */
  ghost predicate NoWrites(w: World, w': World) {
    && w.audit <= w'.audit
    && forall i | |w.audit| <= i < |w'.audit| :: !WritesObj(w'.audit[i])
  }

  lemma NoWritesTransitive(w: World, w1: World, w2: World)
    requires NoWrites(w, w1) && NoWrites(w1, w2)
    ensures NoWrites(w, w2)
  {
  }

  lemma UntouchedNoWrites(w: World, w': World)
    requires Untouched(w, w')
    ensures NoWrites(w, w')
  {
  }

  lemma {:induction false} CleanedAllNoWrites(w: World, env: Env, inst: CR, xs: seq<Obj>)
    requires Valid(w, env.home)
    ensures NoWrites(w, CleanedAll(w, env, inst, xs).w)
    decreases |xs|
  {
    hide Valid, Evolves, GetObj, DeleteObject, IsResourceOwned;
    if xs != [] {
      var got := GetObj(w, env, KeyOf(xs[0]));
      GetKeeps(w, env, KeyOf(xs[0]));
      CleanedKeeps(w, env, inst, xs[0]);
      if got.res.Ok? {
        DeleteLogs(got.w, env, KeyOf(got.res.value));
      }
      CleanedAllNoWrites(Cleaned(w, env, inst, xs[0]).w, env, inst, xs[1..]);
    }
  }

  lemma DeleteLogs(w: World, env: Env, k: Key)
    requires Valid(w, env.home)
    ensures NoWrites(w, DeleteObject(w, env, k).w)
  {
    hide Begin, Valid, Evolves;
    BeginKeeps(w, env);
  }

  lemma TeardownNoWrites(w: World, env: Env, inst: CR, es: seq<Entry>)
    requires Valid(w, env.home)
    ensures NoWrites(w, Teardown(w, env, inst, es).w)
  {
    hide ListObjs, CleanedAll, Valid, Evolves, TasksListed, PipelinesListed;
    var found := ListObjs(w, env, ClusterTask, MANAGED_BY_LABEL, MANAGED_BY_VALUE);
    ListKeeps(w, env, ClusterTask, MANAGED_BY_LABEL, MANAGED_BY_VALUE);
    if found.res.Ok? {
      var xs := TasksListed(es) + found.res.value;
      CleanedAllNoWrites(found.w, env, inst, xs);
      CleanedAllKeeps(found.w, env, inst, xs);
      CleanedAllNoWrites(CleanedAll(found.w, env, inst, xs).w, env, inst, PipelinesListed(es));
    }
  }

  lemma CrWritesNothing(w: World, env: Env, inst: CR)
    requires Valid(w, env.home)
    ensures NoWrites(w, StatusWrite(w, env, inst).w) && NoWrites(w, MetaWrite(w, env, inst).w)
  {
    hide StatusWrite, MetaWrite, Valid;
    WritesUntouched(w, env, inst);
  }

  lemma MarkDeletedNoWrites(w: World, env: Env, inst: CR)
    requires Valid(w, env.home)
    ensures NoWrites(w, MarkDeleted(w, env, inst).w)
  {
    hide StatusWrite, Valid, NoWrites;
    CrWritesNothing(w, env, inst.(status := DeletedStatus(inst.status, inst.gen)));
  }

  lemma CleanupNoWrites(w: World, env: Env, inst: CR, es: seq<Entry>)
    requires Valid(w, env.home) && Copy(w, env.home, inst)
    ensures NoWrites(w, CleanupPass(w, env, inst, es).w)
  {
    hide StatusWrite, MetaWrite, MarkDeleted, Teardown, Valid, Evolves, Copy, Kept, DeletingStatus, HasOurs, NoWrites,
         Without;
    if !HasOurs(inst) {
      MarkDeletedNoWrites(w, env, inst);
    } else {
      var s := DeletingStatus(inst.status, inst.gen);
      StatusWriteKeeps(w, env, inst, s);
      CrWritesNothing(w, env, inst.(status := s));
      var mark := StatusWrite(w, env, inst.(status := s));
      KeptValid(w, mark.w, env.home);
      TeardownKeeps(mark.w, env, mark.inst, es);
      TeardownNoWrites(mark.w, env, mark.inst, es);
      var down := Teardown(mark.w, env, mark.inst, es);
      NoWritesTransitive(w, mark.w, down.w);
      CopyEvolves(mark.w, down.w, env.home, mark.inst);
      var fs := Released(mark.inst).finalizers;
      assert Released(mark.inst) == mark.inst.(finalizers := fs);
      MetaWriteKeeps(down.w, env, mark.inst, fs);
      CrWritesNothing(down.w, env, Released(mark.inst));
      var freed := MetaWrite(down.w, env, Released(mark.inst));
      KeptValid(down.w, freed.w, env.home);
      NoWritesTransitive(w, down.w, freed.w);
      MarkDeletedNoWrites(freed.w, env, freed.inst);
      NoWritesTransitive(w, freed.w, MarkDeleted(freed.w, env, freed.inst).w);
    }
  }

  // ---------- whole passes ----------

  lemma NamedBetween(ns: string, spec: Spec, w: World, w1: World, w2: World, w3: World, es: seq<Entry>)
    requires NoWrites(w, w1) && WritesNamed(ns, spec, w1.audit, w2.audit, es) && NoWrites(w2, w3)
    ensures WritesNamed(ns, spec, w.audit, w3.audit, es)
  {
    hide NamedBy;
  }

  lemma NoWritesNamed(ns: string, spec: Spec, w: World, w': World, es: seq<Entry>)
    requires NoWrites(w, w')
    ensures WritesNamed(ns, spec, w.audit, w'.audit, es)
  {
  }

  lemma HandledNoWrites(w: World, env: Env, inst: CR, err: Option<Error>)
    requires Valid(w, env.home)
    ensures NoWrites(w, ErrorHandled(w, env, inst, err).w)
  {
    hide ErrorHandled, Valid, Untouched, NoWrites;
    ErrorHandledUntouched(w, env, inst, err);
    UntouchedNoWrites(w, ErrorHandled(w, env, inst, err).w);
  }

  lemma DeployMoves(w: World, env: Env, m: Memory, inst: CR)
    requires Valid(w, env.home) && Copy(w, env.home, inst) && AllWellKinded(m.entries)
    ensures var out := Deploy(w, env, m, inst, false);
            && AllMoved(env.home.ns, inst.spec, m.entries, out.m.entries)
            && WritesNamed(env.home.ns, inst.spec, w.audit, out.w.audit, out.m.entries)
  {
    hide StatusWrite, ErrorHandled, ReconcileAll, PreStatus, Aggregated, Copy, Valid, Evolves, Kept, NoWrites,
         AllWellKinded, AllMoved, WritesNamed;
    var ns, es, out := env.home.ns, m.entries, Deploy(w, env, m, inst, false);
    var s := PreStatus(env.cfg, inst.status, inst.gen);
    StatusWriteKeeps(w, env, inst, s);
    CrWritesNothing(w, env, inst.(status := s));
    var pre := StatusWrite(w, env, inst.(status := s));
    CopyHome(pre.w, env.home, pre.inst);
    KeptValid(w, pre.w, env.home);
    HandledNoWrites(pre.w, env, pre.inst, pre.err);
    NothingMoved(ns, inst.spec, es);
    NamedNothing(ns, inst.spec, pre.w.audit, es);
    ListMoves(pre.w, env, m.versions, pre.inst, es);
    OperandsKeep(pre.w, env, m, pre.inst, false);
    var ops := ReconcileOperands(pre.w, env, m, pre.inst, false);
    NoWritesReflexive(ops.w);
    HandledNoWrites(ops.w, env, pre.inst, ops.err);
    CopyEvolves(pre.w, ops.w, env.home, pre.inst);
    var done := Aggregated(env.cfg, pre.inst.status, pre.inst.gen, ops.results);
    StatusWriteKeeps(ops.w, env, pre.inst, done);
    CrWritesNothing(ops.w, env, pre.inst.(status := done));
    var post := StatusWrite(ops.w, env, pre.inst.(status := done));
    KeptValid(ops.w, post.w, env.home);
    HandledNoWrites(post.w, env, post.inst, post.err);
    if pre.err.Some? {
      NamedBetween(ns, inst.spec, w, pre.w, pre.w, out.w, es);
    } else {
      if ops.err.None? {
        NoWritesTransitive(ops.w, post.w, out.w);
      }
      NamedBetween(ns, inst.spec, w, pre.w, ops.w, out.w, ops.entries);
    }
  }

  lemma NoWritesReflexive(w: World)
    ensures NoWrites(w, w)
  {
  }

  lemma ServeLiveMoves(w: World, env: Env, m: Memory, inst: CR)
    requires Valid(w, env.home) && Copy(w, env.home, inst) && AllWellKinded(m.entries)
    ensures var out := ServeLive(w, env, m, inst, false);
            && AllMoved(env.home.ns, inst.spec, m.entries, out.m.entries)
            && WritesNamed(env.home.ns, inst.spec, w.audit, out.w.audit, out.m.entries)
  {
    hide ListCrs, StatusWrite, Deploy, MultipleStatus, PausedStatus, Copy, Valid, Evolves, IsPaused, NoWrites,
         AllWellKinded, AllMoved, WritesNamed;
    var ns, out := env.home.ns, ServeLive(w, env, m, inst, false);
    ListEffect(w, env);
    var all := ListCrs(w, env);
    NothingMoved(ns, inst.spec, m.entries);
    NamedNothing(ns, inst.spec, w.audit, m.entries);
    if all.res.Ok? {
      if all.res.value.1 > 1 {
        if all.res.value.0.Some? {
          var item := all.res.value.0.value;
          CrWritesNothing(all.w, env, item.(status := MultipleStatus(item.status)));
          NoWritesNamed(ns, inst.spec, all.w, out.w, m.entries);
        }
      } else if IsPaused(inst) {
        CrWritesNothing(all.w, env, inst.(status := PausedStatus(inst.status, inst.gen)));
        NoWritesReflexive(all.w);
        NoWritesNamed(ns, inst.spec, all.w, out.w, m.entries);
      } else {
        CopyEvolves(w, all.w, env.home, inst);
        DeployMoves(all.w, env, m, inst);
      }
    }
  }

  /** The spec that a pass places objects by: it reads a CR that is neither being deleted nor paused nor gated
      off. */
  function Heeded(w: World, env: Env): Option<Spec> {
    var got := GetCr(w, env).res;
    if got.Ok? && !got.value.deleting && !Off(got.value) then Some(got.value.spec) else None
  }

  /** A pass that heeds no spec leaves its lists alone and writes no operand object; any other moves entries to
      the places of that spec only, and names what it writes. */
  lemma PassMoves(w: World, env: Env, m: Memory)
    requires Valid(w, env.home) && AllWellKinded(m.entries)
    ensures var out, spec := Pass(w, env, m, false), Heeded(w, env);
            if spec.None? then out.m.entries == m.entries && NoWrites(w, out.w)
            else && AllMoved(env.home.ns, spec.value, m.entries, out.m.entries)
                 && WritesNamed(env.home.ns, spec.value, w.audit, out.w.audit, out.m.entries)
  {
    hide GetCr, ServeLive, ErrorHandled, ResourceWrite, CleanupPass, Without, Copy, Valid, Evolves, NoWrites, Off,
         AllWellKinded, AllMoved, WritesNamed, Untouched;
    ReadEffect(w, env);
    var got, out := GetCr(w, env), Pass(w, env, m, false);
    if got.res.Err? || Off(got.res.value) {
      OffPassWritesNothing(w, env, m);
      UntouchedNoWrites(w, out.w);
    } else if got.res.value.deleting && !NeedsMigration(got.res.value) {
      CleanupNoWrites(got.w, env, got.res.value, m.entries);
      NoWritesSince(w, got.w, out.w);
    } else if got.res.value.deleting || !IsInitialized(got.res.value) || NeedsMigration(got.res.value) {
      var inst := got.res.value;
      WriteAndHandleUntouched(got.w, env, inst, AddFinalizer(inst, FINALIZER).finalizers);
      WriteAndHandleUntouched(got.w, env, inst,
                              AddFinalizer(RemoveFinalizer(inst, OLD_FINALIZER), FINALIZER).finalizers);
      UntouchedNoWrites(got.w, out.w);
      NoWritesSince(w, got.w, out.w);
      NothingMoved(env.home.ns, inst.spec, m.entries);
      NoWritesNamed(env.home.ns, inst.spec, w, out.w, m.entries);
    } else {
      ServeLiveMoves(got.w, env, ClearedIfNeeded(m, got.res.value.spec), got.res.value);
    }
  }

  lemma NoWritesSince(w: World, w1: World, w2: World)
    requires w1.audit == w.audit && NoWrites(w1, w2)
    ensures NoWrites(w, w2)
  {
  }

  // ---------- the lifetime of a process ----------

  /** A process that has made n passes since it started in w. */
  function After(w: World, env: Env, bundle: seq<Entry>, n: nat): RunOut {
    Run(w, env, Booted(bundle), bundle, seq(n, _ => DoPass), false)
  }

  function NextPass(s: RunOut, env: Env): PassOut {
    Pass(s.w, env, s.m, false)
  }

  lemma {:induction false} OneMore(w: World, env: Env, m: Memory, bundle: seq<Entry>, n: nat)
    ensures var s := Run(w, env, m, bundle, seq(n, _ => DoPass), false);
            var t := Run(w, env, m, bundle, seq(n + 1, _ => DoPass), false);
            t.w == Pass(s.w, env, s.m, false).w && t.m == Pass(s.w, env, s.m, false).m
    decreases n
  {
    hide Pass;
    assert seq(n + 1, _ => DoPass)[1..] == seq(n, _ => DoPass);
    if n == 0 {
      assert seq(n, _ => DoPass) == [];
    } else {
      var first := Pass(w, env, m, false);
      assert seq(n, _ => DoPass)[1..] == seq(n - 1, _ => DoPass);
      OneMore(first.w, env, first.m, bundle, n - 1);
    }
  }

  lemma AfterNext(w: World, env: Env, bundle: seq<Entry>, n: nat)
    ensures var s, t := After(w, env, bundle, n), After(w, env, bundle, n + 1);
            t.w == NextPass(s, env).w && t.m == NextPass(s, env).m
  {
    hide Pass, Run;
    OneMore(w, env, Booted(bundle), bundle, n);
  }

  /** What holds of every process. */
  lemma {:induction false} AfterSound(w: World, env: Env, bundle: seq<Entry>, n: nat)
    requires Valid(w, env.home) && AllWellKinded(bundle)
    ensures var s := After(w, env, bundle, n);
            && Valid(s.w, env.home) && AllWellKinded(s.m.entries) && w.audit <= s.w.audit
            && (DistinctEntries(env.home.ns, bundle) ==> DistinctEntries(env.home.ns, s.m.entries))
  {
    hide After, NextPass, Valid, AllWellKinded, DistinctEntries;
    if n == 0 {
      AfterNone(w, env, bundle);
    } else {
      AfterSound(w, env, bundle, n - 1);
      AfterNext(w, env, bundle, n - 1);
      NextMoves(After(w, env, bundle, n - 1), env);
    }
  }

  lemma AfterNone(w: World, env: Env, bundle: seq<Entry>)
    ensures var s := After(w, env, bundle, 0); s.w == w && s.m.entries == bundle
  {
    assert seq(0, _ => DoPass) == [];
  }

  lemma NextMoves(s: RunOut, env: Env)
    requires Valid(s.w, env.home) && AllWellKinded(s.m.entries)
    ensures var out := NextPass(s, env);
            && Valid(out.w, env.home) && AllWellKinded(out.m.entries) && s.w.audit <= out.w.audit
            && (DistinctEntries(env.home.ns, s.m.entries) ==> DistinctEntries(env.home.ns, out.m.entries))
  {
    hide Pass, Valid, Heeded, AllWellKinded, DistinctEntries, AllMoved, NamedBy, Kept;
    PassMoves(s.w, env, s.m);
    PassKept(s.w, env, s.m, false);
    KeptValid(s.w, NextPass(s, env).w, env.home);
    var out, spec := NextPass(s, env), Heeded(s.w, env);
    if spec.Some? {
      MovedKinds(env.home.ns, spec.value, s.m.entries, out.m.entries);
      MovedDistinct(env.home.ns, spec.value, s.m.entries, out.m.entries);
    }
  }

  // ---------- what cleaning up looks up ----------

  lemma {:induction false} SelectHas(es: seq<Entry>, i: nat)
    requires i < |es|
    ensures es[i].obj in Select(es, es[i].rule)
  {
    if i > 0 {
      SelectHas(es[1..], i - 1);
    }
  }

  /** Cleaning up looks up every list entry. */
  lemma EntryIsLookedUp(es: seq<Entry>, i: nat)
    requires i < |es|
    ensures Concerned(es, KeyOf(es[i].obj))
  {
    hide Select;
    SelectHas(es, i);
    match es[i].rule {
      case TTask => assert es[i].obj in Select(es, TTask);
      case TClusterRole => assert es[i].obj in Select(es, TClusterRole);
      case TServiceAccount => assert es[i].obj in Select(es, TServiceAccount);
      case TRoleBinding => assert es[i].obj in Select(es, TRoleBinding);
      case PClusterRole => assert es[i].obj in Select(es, PClusterRole);
      case PPipeline => assert es[i].obj in Select(es, PPipeline);
      case PConfigMap => assert es[i].obj in Select(es, PConfigMap);
      case PRoleBinding => assert es[i].obj in Select(es, PRoleBinding);
      case PServiceAccount => assert es[i].obj in Select(es, PServiceAccount);
    }
    assert es[i].obj in TasksListed(es) + PipelinesListed(es);
  }

  lemma {:induction false} SelectSound(es: seq<Entry>, rule: Rule, x: Obj)
    requires x in Select(es, rule)
    ensures exists i :: 0 <= i < |es| && es[i].obj == x
  {
    if es[0].rule == rule && es[0].obj == x {
    } else {
      SelectSound(es[1..], rule, x);
      var i :| 0 <= i < |es[1..]| && es[1..][i].obj == x;
      assert es[i + 1].obj == x;
    }
  }

  lemma ListedIsEntry(es: seq<Entry>, x: Obj)
    requires x in TasksListed(es) + PipelinesListed(es)
    ensures exists i :: 0 <= i < |es| && es[i].obj == x
  {
    hide Select;
    forall rule: Rule | x in Select(es, rule)
      ensures exists i :: 0 <= i < |es| && es[i].obj == x
    {
      SelectSound(es, rule, x);
    }
  }

  /** Some entry names this key, in its place or not. */
  ghost predicate Names(es: seq<Entry>, k: Key) {
    exists i :: 0 <= i < |es| && KeyOf(es[i].obj) == k
  }

  /** Cleaning up looks up what the entries name, and nothing else. */
  lemma LookedUpExactly(es: seq<Entry>, k: Key)
    ensures Concerned(es, k) <==> Names(es, k)
  {
    if Names(es, k) {
      var i :| 0 <= i < |es| && KeyOf(es[i].obj) == k;
      EntryIsLookedUp(es, i);
    }
    if Concerned(es, k) {
      var x :| x in TasksListed(es) + PipelinesListed(es) && KeyOf(x) == k;
      ListedIsEntry(es, x);
      var i :| 0 <= i < |es| && es[i].obj == x;
      assert KeyOf(es[i].obj) == k;
    }
  }

  // ---------- coverage ----------

  /** An entry goes from one key to another one. */
  ghost predicate Renames(es: seq<Entry>, es': seq<Entry>, a: Key, b: Key) {
    exists j :: 0 <= j < |es| && j < |es'| && KeyOf(es[j].obj) == a && KeyOf(es'[j].obj) == b
  }

  /** The next pass heeds a spec with another place for this kind, and moves the entry there that names the key. */
  ghost predicate Leaves(s: RunOut, env: Env, k: Key) {
    var spec := Heeded(s.w, env);
    && spec.Some? && !Fixed(k.kind)
    && var place := Place(k.kind, env.home.ns, spec.value);
       place != k.ns && Renames(s.m.entries, NextPass(s, env).m.entries, k, k.(ns := place))
  }

  /** The next pass heeds a spec with this place for the kind, and moves an entry there from elsewhere. */
  ghost predicate Returns(s: RunOut, env: Env, k: Key) {
    var spec := Heeded(s.w, env);
    && spec.Some? && Place(k.kind, env.home.ns, spec.value) == k.ns
    && exists place :: place != k.ns && Renames(s.m.entries, NextPass(s, env).m.entries, k.(ns := place), k)
  }

  /** Since the event number i was logged, some pass has moved an entry away from the key, and none after it has
      moved one back. */
  ghost predicate MovedAway(w: World, env: Env, bundle: seq<Entry>, n: nat, i: nat, k: Key) {
    exists q: nat :: AwaySince(w, env, bundle, n, i, k, q)
  }

  ghost predicate AwaySince(w: World, env: Env, bundle: seq<Entry>, n: nat, i: nat, k: Key, q: nat) {
    && q < n && i < |After(w, env, bundle, q).w.audit| && Leaves(After(w, env, bundle, q), env, k)
    && forall r | q < r < n :: !Returns(After(w, env, bundle, r), env, k)
  }

  lemma LeavesForgets(s: RunOut, env: Env, k: Key)
    requires Valid(s.w, env.home) && AllWellKinded(s.m.entries) && DistinctEntries(env.home.ns, s.m.entries)
    requires Leaves(s, env, k)
    ensures Names(s.m.entries, k) && !Names(NextPass(s, env).m.entries, k)
  {
    hide Pass, Heeded, Valid;
    PassMoves(s.w, env, s.m);
    var ns, spec, es, es' := env.home.ns, Heeded(s.w, env).value, s.m.entries, NextPass(s, env).m.entries;
    MovedKinds(ns, spec, es, es');
    MovedDistinct(ns, spec, es, es');
    var j :| 0 <= j < |es| && j < |es'| && KeyOf(es[j].obj) == k
             && KeyOf(es'[j].obj) == k.(ns := Place(k.kind, ns, spec));
    if Names(es', k) {
      var i :| 0 <= i < |es'| && KeyOf(es'[i].obj) == k;
      assert es'[i] in es' && es'[j] in es';
      SameIdentity(ns, es'[i], es'[j]);
      assert false;
    }
  }

  /** Entries of a kind that specs move are told apart by their names. */
  lemma SameIdentity(ns: string, a: Entry, b: Entry)
    requires WellKinded(a) && WellKinded(b) && a.obj.kind == b.obj.kind && a.obj.name == b.obj.name
    requires !Fixed(a.obj.kind)
    ensures Identity(ns, a) == Identity(ns, b)
  {
  }

  lemma ReturnsNames(s: RunOut, env: Env, k: Key)
    requires Returns(s, env, k)
    ensures Names(NextPass(s, env).m.entries, k)
  {
    hide NextPass, Heeded;
  }

  /** A key of a kind that specs move is dropped only by leaving it, and found only by returning to it. */
  lemma NamesChange(s: RunOut, env: Env, k: Key)
    requires Valid(s.w, env.home) && AllWellKinded(s.m.entries) && !Fixed(k.kind)
    ensures var es' := NextPass(s, env).m.entries;
            && (Names(s.m.entries, k) && !Names(es', k) ==> Leaves(s, env, k))
            && (!Names(s.m.entries, k) && Names(es', k) ==> Returns(s, env, k))
  {
    hide Pass, Heeded, Valid;
    PassMoves(s.w, env, s.m);
    var es, es' := s.m.entries, NextPass(s, env).m.entries;
    if Heeded(s.w, env).Some? {
      var ns, spec := env.home.ns, Heeded(s.w, env).value;
      if Names(es, k) && !Names(es', k) {
        var j :| 0 <= j < |es| && KeyOf(es[j].obj) == k;
        assert es[j] in es && Moved(ns, spec, es[j], es'[j]) && KeyOf(es'[j].obj) != k;
        TargetPlace(ns, spec, spec, es[j]);
        assert Renames(es, es', k, k.(ns := Place(k.kind, ns, spec)));
      }
      if !Names(es, k) && Names(es', k) {
        var j :| 0 <= j < |es'| && KeyOf(es'[j].obj) == k;
        assert es[j] in es && Moved(ns, spec, es[j], es'[j]) && KeyOf(es[j].obj) != k;
        TargetPlace(ns, spec, spec, es[j]);
        assert KeyOf(es[j].obj) == k.(ns := es[j].obj.ns);
        assert Renames(es, es', k.(ns := es[j].obj.ns), k);
      }
    }
  }

  /** An object of a kind that no spec moves stays named once an entry names it in its place. */
  lemma FixedStaysNamed(s: RunOut, env: Env, spec: Spec, k: Key)
    requires Valid(s.w, env.home) && AllWellKinded(s.m.entries) && Fixed(k.kind)
    requires NamedBy(env.home.ns, spec, s.m.entries, k)
    ensures NamedBy(env.home.ns, spec, NextPass(s, env).m.entries, k)
  {
    hide Pass, Heeded, Valid, InPlace, Moved;
    PassMoves(s.w, env, s.m);
    var ns, es, es' := env.home.ns, s.m.entries, NextPass(s, env).m.entries;
    if Heeded(s.w, env).Some? {
      var j :| 0 <= j < |es| && InPlace(ns, spec, es[j]) && KeyOf(es[j].obj) == k;
      assert es[j] in es && Moved(ns, Heeded(s.w, env).value, es[j], es'[j]);
      MovedInPlace(ns, spec, Heeded(s.w, env).value, es[j], es'[j]);
      assert InPlace(ns, spec, es'[j]) && KeyOf(es'[j].obj) == k;
    }
  }

  /** What a pass has just written is named. */
  lemma JustWritten(s: RunOut, env: Env, spec: Spec, i: nat)
    requires Valid(s.w, env.home) && AllWellKinded(s.m.entries)
    requires |s.w.audit| <= i < |NextPass(s, env).w.audit| && WritesObj(NextPass(s, env).w.audit[i])
    ensures var k, es' := NextPass(s, env).w.audit[i].key, NextPass(s, env).m.entries;
            Names(es', k) && (Fixed(k.kind) ==> NamedBy(env.home.ns, spec, es', k))
  {
    hide Pass, Heeded, Valid, AllMoved;
    PassMoves(s.w, env, s.m);
    var ns, es', k := env.home.ns, NextPass(s, env).m.entries, NextPass(s, env).w.audit[i].key;
    var read := Heeded(s.w, env).value;
    MovedKinds(ns, read, s.m.entries, es');
    assert NamedBy(ns, read, es', k);
    var j :| 0 <= j < |es'| && InPlace(ns, read, es'[j]) && KeyOf(es'[j].obj) == k;
    assert es'[j] in es';
    TargetPlace(ns, read, spec, es'[j]);
    assert Fixed(k.kind) ==> InPlace(ns, spec, es'[j]);
  }

  /** The written objects of the kinds that no spec moves. */
  lemma {:induction false} FixedIsNamed(w: World, env: Env, bundle: seq<Entry>, n: nat, i: nat, spec: Spec)
    requires Valid(w, env.home) && AllWellKinded(bundle) && |w.audit| <= i < |After(w, env, bundle, n).w.audit|
    requires var e := After(w, env, bundle, n).w.audit[i]; WritesObj(e) && Fixed(e.key.kind)
    ensures NamedBy(env.home.ns, spec, After(w, env, bundle, n).m.entries, After(w, env, bundle, n).w.audit[i].key)
    decreases n
  {
    hide After, NextPass, Valid, AllWellKinded, NamedBy, DistinctEntries, Fixed;
    if n == 0 {
      AfterNone(w, env, bundle);
      assert false;
    } else {
      var s := After(w, env, bundle, n - 1);
      AfterSound(w, env, bundle, n - 1);
      AfterNext(w, env, bundle, n - 1);
      NextMoves(s, env);
      if i < |s.w.audit| {
        FixedIsNamed(w, env, bundle, n - 1, i, spec);
        FixedStaysNamed(s, env, spec, s.w.audit[i].key);
      } else {
        JustWritten(s, env, spec, i);
      }
    }
  }

  lemma AwayStep(w: World, env: Env, bundle: seq<Entry>, n: nat, i: nat, k: Key)
    requires Valid(w, env.home) && AllWellKinded(bundle) && !Fixed(k.kind)
    requires i < |After(w, env, bundle, n).w.audit|
    requires var es := After(w, env, bundle, n).m.entries;
             && (Names(es, k) || MovedAway(w, env, bundle, n, i, k))
             && (DistinctEntries(env.home.ns, bundle) ==> !(Names(es, k) && MovedAway(w, env, bundle, n, i, k)))
    ensures var es := After(w, env, bundle, n + 1).m.entries;
            && (Names(es, k) || MovedAway(w, env, bundle, n + 1, i, k))
            && (DistinctEntries(env.home.ns, bundle) ==> !(Names(es, k) && MovedAway(w, env, bundle, n + 1, i, k)))
  {
    hide After, NextPass, Valid, AllWellKinded, DistinctEntries, Names, Leaves, Returns, Fixed;
    var s := After(w, env, bundle, n);
    AfterSound(w, env, bundle, n);
    AfterNext(w, env, bundle, n);
    NamesChange(s, env, k);
    var es' := NextPass(s, env).m.entries;
    if !Names(es', k) {
      if Names(s.m.entries, k) {
        assert AwaySince(w, env, bundle, n + 1, i, k, n);
      } else {
        var q: nat :| AwaySince(w, env, bundle, n, i, k, q);
        if Returns(s, env, k) {
          ReturnsNames(s, env, k);
        }
        assert AwaySince(w, env, bundle, n + 1, i, k, q);
      }
    } else if DistinctEntries(env.home.ns, bundle) && MovedAway(w, env, bundle, n + 1, i, k) {
      var q: nat :| AwaySince(w, env, bundle, n + 1, i, k, q);
      if q == n {
        LeavesForgets(s, env, k);
      } else {
        AwayBefore(w, env, bundle, n, i, k, q);
      }
    }
  }

  lemma AwayBefore(w: World, env: Env, bundle: seq<Entry>, n: nat, i: nat, k: Key, q: nat)
    requires AwaySince(w, env, bundle, n + 1, i, k, q) && q < n
    ensures MovedAway(w, env, bundle, n, i, k)
  {
    hide After, Leaves, Returns;
    assert AwaySince(w, env, bundle, n, i, k, q);
  }

  lemma {:induction false} MovableIsNamed(w: World, env: Env, bundle: seq<Entry>, n: nat, i: nat)
    requires Valid(w, env.home) && AllWellKinded(bundle) && |w.audit| <= i < |After(w, env, bundle, n).w.audit|
    requires var e := After(w, env, bundle, n).w.audit[i]; WritesObj(e) && !Fixed(e.key.kind)
    ensures var s := After(w, env, bundle, n);
            var k := s.w.audit[i].key;
            && (Names(s.m.entries, k) || MovedAway(w, env, bundle, n, i, k))
            && (DistinctEntries(env.home.ns, bundle) ==>
                  !(Names(s.m.entries, k) && MovedAway(w, env, bundle, n, i, k)))
    decreases n
  {
    hide After, NextPass, Valid, AllWellKinded, Names, DistinctEntries, Fixed, Leaves, Returns;
    if n == 0 {
      AfterNone(w, env, bundle);
      assert false;
    } else {
      var s := After(w, env, bundle, n - 1);
      AfterSound(w, env, bundle, n - 1);
      AfterNext(w, env, bundle, n - 1);
      NextMoves(s, env);
      if i < |s.w.audit| {
        MovableIsNamed(w, env, bundle, n - 1, i);
        AwayStep(w, env, bundle, n - 1, i, s.w.audit[i].key);
      } else {
        JustWritten(s, env, EMPTY_SPEC, i);
        NotYetAway(w, env, bundle, n - 1, i, NextPass(s, env).w.audit[i].key);
      }
    }
  }

  /** Nothing that was only just written has moved away. */
  lemma NotYetAway(w: World, env: Env, bundle: seq<Entry>, n: nat, i: nat, k: Key)
    requires Valid(w, env.home) && AllWellKinded(bundle) && |After(w, env, bundle, n).w.audit| <= i
    ensures !MovedAway(w, env, bundle, n + 1, i, k)
  {
    hide After, Valid, AllWellKinded, Leaves, Returns;
    if MovedAway(w, env, bundle, n + 1, i, k) {
      var q: nat :| AwaySince(w, env, bundle, n + 1, i, k, q);
      LogGrows(w, env, bundle, q, n);
      assert false;
    }
  }

  lemma {:induction false} LogGrows(w: World, env: Env, bundle: seq<Entry>, q: nat, n: nat)
    requires Valid(w, env.home) && AllWellKinded(bundle) && q <= n
    ensures After(w, env, bundle, q).w.audit <= After(w, env, bundle, n).w.audit
    decreases n
  {
    hide After, NextPass, Valid, AllWellKinded, DistinctEntries;
    if q < n {
      LogGrows(w, env, bundle, q, n - 1);
      AfterSound(w, env, bundle, n - 1);
      AfterNext(w, env, bundle, n - 1);
      NextMoves(After(w, env, bundle, n - 1), env);
    }
  }

  /** Coverage: after any number of passes of a process, whatever failed midway or was skipped and whatever the CR
      did meanwhile, cleanup looks up the key of every object that the process ever created or changed, unless
      since then a pass has moved the very entry to another namespace and none has moved it back; and then,
      entries being distinct, it does not. Of the kinds that no spec moves it looks up every one. */
  lemma WrittenIsLookedUp(w: World, env: Env, bundle: seq<Entry>, n: nat, i: nat)
    requires Valid(w, env.home) && AllWellKinded(bundle) && |w.audit| <= i < |After(w, env, bundle, n).w.audit|
    requires WritesObj(After(w, env, bundle, n).w.audit[i])
    ensures var s := After(w, env, bundle, n);
            var k := s.w.audit[i].key;
            && (Concerned(s.m.entries, k) || MovedAway(w, env, bundle, n, i, k))
            && (DistinctEntries(env.home.ns, bundle) ==>
                  (Concerned(s.m.entries, k) <==> !MovedAway(w, env, bundle, n, i, k)))
            && (Fixed(k.kind) ==> Concerned(s.m.entries, k))
  {
    hide After, Valid, AllWellKinded, Names, Concerned, DistinctEntries, Returns, Fixed;
    var s := After(w, env, bundle, n);
    var k := s.w.audit[i].key;
    LookedUpExactly(s.m.entries, k);
    if Fixed(k.kind) {
      FixedIsNamed(w, env, bundle, n, i, EMPTY_SPEC);
      NamedIsNamed(env.home.ns, EMPTY_SPEC, s.m.entries, k);
      FixedNeverAway(w, env, bundle, n, i, k);
    } else {
      MovableIsNamed(w, env, bundle, n, i);
    }
  }

  lemma NamedIsNamed(ns: string, spec: Spec, es: seq<Entry>, k: Key)
    requires NamedBy(ns, spec, es, k)
    ensures Names(es, k)
  {
  }

  lemma FixedNeverAway(w: World, env: Env, bundle: seq<Entry>, n: nat, i: nat, k: Key)
    requires Fixed(k.kind)
    ensures !MovedAway(w, env, bundle, n, i, k)
  {
    hide After, Returns, NextPass, Heeded;
  }

  // ---------- one write for each key ----------

  /** How often the operator wrote at a key. */
  function WritesAt(audit: seq<Write>, k: Key): nat {
    if audit == [] then 0
    else
      var e := audit[|audit| - 1];
      WritesAt(audit[..|audit| - 1], k)
      + if (e.ObjCreated? || e.ObjUpdated? || e.ObjDeleted?) && e.key == k then 1 else 0
  }

  lemma LogsOnlyCount(audit: seq<Write>, audit': seq<Write>, at: Key, k: Key)
    requires LogsOnly(audit, audit', at)
    ensures WritesAt(audit', k) == WritesAt(audit, k) + if audit' != audit && at == k then 1 else 0
  {
    if audit' != audit {
      assert audit'[..|audit'| - 1] == audit;
    }
  }

  lemma {:induction false} UntouchedCount(audit: seq<Write>, audit': seq<Write>, k: Key)
    requires audit <= audit'
    requires forall i | |audit| <= i < |audit'| :: audit'[i].CrStatus? || audit'[i].CrWritten?
    ensures WritesAt(audit', k) == WritesAt(audit, k)
    decreases |audit'|
  {
    if |audit'| > |audit| {
      UntouchedCount(audit, audit'[..|audit'| - 1], k);
    } else {
      assert audit' == audit;
    }
  }

  ghost predicate Targeted(ns: string, spec: Spec, es: seq<Entry>, k: Key) {
    exists i :: 0 <= i < |es| && TargetKey(ns, spec, es[i]) == k
  }

  lemma {:induction false} ListWritesOnce(w: World, env: Env, c: Versions, inst: CR, es: seq<Entry>, k: Key)
    requires Valid(w, env.home) && AllWellKinded(es) && DistinctEntries(inst.nn.ns, es)
    ensures var out := ReconcileAll(w, env, c, inst, es, false);
            WritesAt(out.w.audit, k) <= WritesAt(w.audit, k) + if Targeted(inst.nn.ns, inst.spec, es, k) then 1 else 0
    decreases |es|
  {
    hide ReconcileEntry, Valid, Evolves, WellKinded, Identity, TargetKey, LogsOnly, InPlace;
    if es != [] {
      var ns, spec := inst.nn.ns, inst.spec;
      var first := ReconcileEntry(w, env, c, inst, es[0], false);
      assert es[0] in es;
      EntryKeeps(w, env, c, inst, es[0], false);
      EntryLogs(w, env, c, inst, es[0]);
      LogsOnlyCount(w.audit, first.w.audit, KeyOf(first.entries[0].obj), k);
      if Targeted(ns, spec, es[1..], k) {
        var i :| 0 <= i < |es[1..]| && TargetKey(ns, spec, es[1..][i]) == k;
        assert es[1..][i] == es[i + 1];
        IdentitiesSeparateKeys(ns, spec, es[0], es[i + 1]);
        assert Targeted(ns, spec, es, k);
      }
      assert TargetKey(ns, spec, es[0]) == k ==> Targeted(ns, spec, es, k);
      if first.err.None? {
        ListWritesOnce(first.w, env, first.versions, inst, es[1..], k);
      }
    }
  }

  lemma DeployWritesOnce(w: World, env: Env, m: Memory, inst: CR, k: Key)
    requires Valid(w, env.home) && Copy(w, env.home, inst)
    requires AllWellKinded(m.entries) && DistinctEntries(env.home.ns, m.entries)
    ensures WritesAt(Deploy(w, env, m, inst, false).w.audit, k) <= WritesAt(w.audit, k) + 1
  {
    hide StatusWrite, ErrorHandled, ReconcileAll, PreStatus, Aggregated, Copy, Valid, Evolves, Kept, WritesAt,
         AllWellKinded, DistinctEntries, Targeted;
    var s := PreStatus(env.cfg, inst.status, inst.gen);
    StatusWriteKeeps(w, env, inst, s);
    WritesUntouched(w, env, inst.(status := s));
    var pre := StatusWrite(w, env, inst.(status := s));
    CopyHome(pre.w, env.home, pre.inst);
    KeptValid(w, pre.w, env.home);
    UntouchedCount(w.audit, pre.w.audit, k);
    ErrorHandledUntouched(pre.w, env, pre.inst, pre.err);
    UntouchedCount(pre.w.audit, ErrorHandled(pre.w, env, pre.inst, pre.err).w.audit, k);
    ListWritesOnce(pre.w, env, m.versions, pre.inst, m.entries, k);
    OperandsKeep(pre.w, env, m, pre.inst, false);
    var ops := ReconcileOperands(pre.w, env, m, pre.inst, false);
    ErrorHandledUntouched(ops.w, env, pre.inst, ops.err);
    UntouchedCount(ops.w.audit, ErrorHandled(ops.w, env, pre.inst, ops.err).w.audit, k);
    CopyEvolves(pre.w, ops.w, env.home, pre.inst);
    var done := Aggregated(env.cfg, pre.inst.status, pre.inst.gen, ops.results);
    StatusWriteKeeps(ops.w, env, pre.inst, done);
    WritesUntouched(ops.w, env, pre.inst.(status := done));
    var post := StatusWrite(ops.w, env, pre.inst.(status := done));
    KeptValid(ops.w, post.w, env.home);
    UntouchedCount(ops.w.audit, post.w.audit, k);
    ErrorHandledUntouched(post.w, env, post.inst, post.err);
    UntouchedCount(post.w.audit, ErrorHandled(post.w, env, post.inst, post.err).w.audit, k);
  }

  lemma ServeLiveWritesOnce(w: World, env: Env, m: Memory, inst: CR, k: Key)
    requires Valid(w, env.home) && Copy(w, env.home, inst)
    requires AllWellKinded(m.entries) && DistinctEntries(env.home.ns, m.entries)
    ensures WritesAt(ServeLive(w, env, m, inst, false).w.audit, k) <= WritesAt(w.audit, k) + 1
  {
    hide ListCrs, StatusWrite, Deploy, MultipleStatus, PausedStatus, Copy, Valid, Evolves, IsPaused, WritesAt,
         AllWellKinded, DistinctEntries;
    ListEffect(w, env);
    var all := ListCrs(w, env);
    if all.res.Ok? {
      if all.res.value.1 > 1 {
        if all.res.value.0.Some? {
          var item := all.res.value.0.value;
          WritesUntouched(all.w, env, item.(status := MultipleStatus(item.status)));
          UntouchedCount(all.w.audit, StatusWrite(all.w, env, item.(status := MultipleStatus(item.status))).w.audit, k);
        }
      } else if IsPaused(inst) {
        var s := PausedStatus(inst.status, inst.gen);
        WritesUntouched(all.w, env, inst.(status := s));
        UntouchedCount(all.w.audit, StatusWrite(all.w, env, inst.(status := s)).w.audit, k);
      } else {
        CopyEvolves(w, all.w, env.home, inst);
        DeployWritesOnce(all.w, env, m, inst, k);
      }
    }
  }

  /** A pass for a CR that is not being deleted creates, updates or deletes at most once at each key, under any
      faults and any edits. */
  lemma PassWritesOnce(w: World, env: Env, m: Memory, k: Key)
    requires Valid(w, env.home) && AllWellKinded(m.entries) && DistinctEntries(env.home.ns, m.entries)
    requires GetCr(w, env).res.Ok? ==> !GetCr(w, env).res.value.deleting
    ensures WritesAt(Pass(w, env, m, false).w.audit, k) <= WritesAt(w.audit, k) + 1
  {
    hide GetCr, ServeLive, ErrorHandled, ResourceWrite, Without, Copy, Valid, Evolves, WritesAt, AllWellKinded,
         DistinctEntries, IsPaused;
    ReadEffect(w, env);
    var got := GetCr(w, env);
    if got.res.Ok? {
      var inst, out := got.res.value, Pass(w, env, m, false);
      if !IsInitialized(inst) {
        WriteAndHandleUntouched(got.w, env, inst, AddFinalizer(inst, FINALIZER).finalizers);
        UntouchedCount(got.w.audit, out.w.audit, k);
      } else if NeedsMigration(inst) {
        WriteAndHandleUntouched(got.w, env, inst,
                                AddFinalizer(RemoveFinalizer(inst, OLD_FINALIZER), FINALIZER).finalizers);
        UntouchedCount(got.w.audit, out.w.audit, k);
      } else {
        ServeLiveWritesOnce(got.w, env, ClearedIfNeeded(m, inst.spec), inst, k);
      }
    }
  }
}

/** Properties of the stored objects that hold in every reachable state: if users keep one, and reconciling
    and removing a single object keep it, then so does every run. */
module Invariants {
  import opened Kube
  import opened ApiServer
  import opened Labels
  import opened Cache
  import opened Resource
  import opened Operands
  import opened StatusReport
  import opened Controller
  import opened Tracking
  import opened Runs

  /** The property looks at the objects and the uids given out, at nothing else. */
  ghost predicate AboutObjects(inv: World -> bool) {
    forall w: World, w': World {:trigger inv(w), inv(w')} :: w.objs == w'.objs && w.uid == w'.uid && inv(w) ==> inv(w')
  }

  ghost predicate UsersKeep(inv: World -> bool, env: Env) {
    forall n: nat, w: World :: Valid(w, env.home) && inv(w) ==> inv(ApplyEdits(w, env.home, env.turn(n).edits))
  }

  /** Reconciling an entry of the known kind keeps the property, and the entry stays of that kind. */
  ghost predicate EntriesKeep(inv: World -> bool, known: Entry -> bool, env: Env) {
    forall w: World, c: Versions, inst: CR, e: Entry ::
      Valid(w, env.home) && inv(w) && known(e) && inst.nn == env.home ==>
        var out := ReconcileEntry(w, env, c, inst, e, false); inv(out.w) && known(out.entries[0])
  }

  ghost predicate CleaningKeeps(inv: World -> bool, env: Env) {
    forall w: World, inst: CR, x: Obj :: Valid(w, env.home) && inv(w) ==> inv(Cleaned(w, env, inst, x).w)
  }

  ghost predicate Inductive(inv: World -> bool, known: Entry -> bool, env: Env) {
    AboutObjects(inv) && UsersKeep(inv, env) && EntriesKeep(inv, known, env) && CleaningKeeps(inv, env)
  }

  lemma BeginInv(inv: World -> bool, w: World, env: Env)
    requires AboutObjects(inv) && UsersKeep(inv, env) && Valid(w, env.home) && inv(w)
    ensures inv(Begin(w, env))
  {
    var w1 := ApplyEdits(w, env.home, env.turn(w.calls).edits);
    assert inv(w1);
    assert w1.objs == Begin(w, env).objs && w1.uid == Begin(w, env).uid;
  }

  lemma CrWriteInv(inv: World -> bool, w: World, env: Env, inst: CR)
    requires AboutObjects(inv) && UsersKeep(inv, env) && Valid(w, env.home) && inv(w)
    ensures inv(StatusWrite(w, env, inst).w) && inv(MetaWrite(w, env, inst).w)
    ensures inv(GetCr(w, env).w) && inv(ListCrs(w, env).w)
  {
    BeginInv(inv, w, env);
    hide Begin, Valid;
    var w1 := Begin(w, env);
    assert StatusWrite(w, env, inst).w.objs == w1.objs && StatusWrite(w, env, inst).w.uid == w1.uid;
    assert MetaWrite(w, env, inst).w.objs == w1.objs && MetaWrite(w, env, inst).w.uid == w1.uid;
  }

  lemma HandledInv(inv: World -> bool, w: World, env: Env, inst: CR, err: Option<Error>)
    requires AboutObjects(inv) && UsersKeep(inv, env) && Valid(w, env.home) && inv(w)
    ensures inv(ErrorHandled(w, env, inst, err).w)
  {
    hide StatusWrite, Valid, AboutObjects, UsersKeep, ErrorStatus;
    if err.Some? {
      CrWriteInv(inv, w, env, inst.(status := ErrorStatus(inst.status, err.value)));
    }
  }

  lemma WriteAndHandleInv(inv: World -> bool, w: World, env: Env, inst: CR, fs: seq<string>)
    requires AboutObjects(inv) && UsersKeep(inv, env) && Valid(w, env.home) && Copy(w, env.home, inst) && inv(w)
    ensures var out := ResourceWrite(w, env, inst.(finalizers := fs));
            inv(ErrorHandled(out.w, env, out.inst, out.err).w)
  {
    hide StatusWrite, MetaWrite, ErrorHandled, Valid, Copy, Kept, AboutObjects, UsersKeep;
    var next := inst.(finalizers := fs);
    MetaWriteKeeps(w, env, inst, fs);
    CrWriteInv(inv, w, env, next);
    var meta := MetaWrite(w, env, next);
    KeptValid(w, meta.w, env.home);
    CrWriteInv(inv, meta.w, env, meta.inst.(status := DeployingStatus(meta.inst.status, meta.inst.gen)));
    ResourceWriteKeeps(w, env, inst, fs);
    var out := ResourceWrite(w, env, next);
    KeptValid(w, out.w, env.home);
    HandledInv(inv, out.w, env, out.inst, out.err);
  }

  lemma {:induction false} CleanedAllInv(inv: World -> bool, w: World, env: Env, inst: CR, xs: seq<Obj>)
    requires CleaningKeeps(inv, env) && Valid(w, env.home) && inv(w)
    ensures inv(CleanedAll(w, env, inst, xs).w)
    decreases |xs|
  {
    hide Cleaned, Valid, Evolves;
    if xs != [] {
      CleanedKeeps(w, env, inst, xs[0]);
      CleanedAllInv(inv, Cleaned(w, env, inst, xs[0]).w, env, inst, xs[1..]);
    }
  }

  lemma TeardownInv(inv: World -> bool, w: World, env: Env, inst: CR, es: seq<Entry>)
    requires AboutObjects(inv) && UsersKeep(inv, env) && CleaningKeeps(inv, env) && Valid(w, env.home) && inv(w)
    ensures inv(Teardown(w, env, inst, es).w)
  {
    hide CleanedAll, Valid, Evolves, TasksListed, PipelinesListed, AboutObjects, UsersKeep, CleaningKeeps, Begin,
        Listed;
    BeginInv(inv, w, env);
    var found := ListObjs(w, env, ClusterTask, MANAGED_BY_LABEL, MANAGED_BY_VALUE);
    ListKeeps(w, env, ClusterTask, MANAGED_BY_LABEL, MANAGED_BY_VALUE);
    if found.res.Ok? {
      var xs := TasksListed(es) + found.res.value;
      CleanedAllKeeps(found.w, env, inst, xs);
      CleanedAllInv(inv, found.w, env, inst, xs);
      CleanedAllInv(inv, CleanedAll(found.w, env, inst, xs).w, env, inst, PipelinesListed(es));
    }
  }

  lemma MarkDeletedInv(inv: World -> bool, w: World, env: Env, inst: CR)
    requires AboutObjects(inv) && UsersKeep(inv, env) && Valid(w, env.home) && inv(w)
    ensures inv(MarkDeleted(w, env, inst).w)
  {
    hide StatusWrite, Valid, AboutObjects, UsersKeep;
    CrWriteInv(inv, w, env, inst.(status := DeletedStatus(inst.status, inst.gen)));
  }

  lemma CleanupInv(inv: World -> bool, w: World, env: Env, inst: CR, es: seq<Entry>)
    requires AboutObjects(inv) && UsersKeep(inv, env) && CleaningKeeps(inv, env)
    requires Valid(w, env.home) && Copy(w, env.home, inst) && inv(w)
    ensures inv(CleanupPass(w, env, inst, es).w)
  {
    hide StatusWrite, MetaWrite, MarkDeleted, Teardown, Valid, Evolves, Copy, Kept, DeletingStatus, HasOurs, Without,
         AboutObjects, UsersKeep, CleaningKeeps;
    if !HasOurs(inst) {
      MarkDeletedInv(inv, w, env, inst);
    } else {
      var s := DeletingStatus(inst.status, inst.gen);
      StatusWriteKeeps(w, env, inst, s);
      CrWriteInv(inv, w, env, inst.(status := s));
      var mark := StatusWrite(w, env, inst.(status := s));
      KeptValid(w, mark.w, env.home);
      TeardownKeeps(mark.w, env, mark.inst, es);
      TeardownInv(inv, mark.w, env, mark.inst, es);
      var down := Teardown(mark.w, env, mark.inst, es);
      CopyEvolves(mark.w, down.w, env.home, mark.inst);
      var fs := Released(mark.inst).finalizers;
      assert Released(mark.inst) == mark.inst.(finalizers := fs);
      MetaWriteKeeps(down.w, env, mark.inst, fs);
      CrWriteInv(inv, down.w, env, Released(mark.inst));
      var freed := MetaWrite(down.w, env, Released(mark.inst));
      KeptValid(down.w, freed.w, env.home);
      MarkDeletedInv(inv, freed.w, env, freed.inst);
    }
  }

  ghost predicate AllKnown(known: Entry -> bool, es: seq<Entry>) {
    forall e <- es :: known(e)
  }

  lemma {:induction false} ListInv(inv: World -> bool, known: Entry -> bool, w: World, env: Env, c: Versions, inst: CR,
                                   es: seq<Entry>)
    requires EntriesKeep(inv, known, env) && Valid(w, env.home) && inv(w) && AllKnown(known, es) && inst.nn == env.home
    ensures var out := ReconcileAll(w, env, c, inst, es, false);
            inv(out.w) && AllKnown(known, out.entries)
    decreases |es|
  {
    hide ReconcileEntry, Valid, Evolves;
    if es != [] {
      var first := ReconcileEntry(w, env, c, inst, es[0], false);
      assert es[0] in es;
      EntryKeeps(w, env, c, inst, es[0], false);
      assert first.entries == [first.entries[0]];
      if first.err.None? {
        ListInv(inv, known, first.w, env, first.versions, inst, es[1..]);
      }
    }
  }

  lemma OperandsInv(inv: World -> bool, known: Entry -> bool, w: World, env: Env, m: Memory, inst: CR)
    requires EntriesKeep(inv, known, env) && Valid(w, env.home) && inv(w) && AllKnown(known, m.entries)
    requires inst.nn == env.home
    ensures var out := ReconcileOperands(w, env, m, inst, false);
            inv(out.w) && AllKnown(known, out.entries)
  {
    hide ReconcileAll, Valid, EntriesKeep, AllKnown;
    ListInv(inv, known, w, env, m.versions, inst, m.entries);
  }

  lemma DeployInv(inv: World -> bool, known: Entry -> bool, w: World, env: Env, m: Memory, inst: CR)
    requires Inductive(inv, known, env) && Valid(w, env.home) && Copy(w, env.home, inst) && inv(w)
    requires AllKnown(known, m.entries)
    ensures var out := Deploy(w, env, m, inst, false);
            inv(out.w) && AllKnown(known, out.m.entries)
  {
    hide StatusWrite, ErrorHandled, ReconcileOperands, PreStatus, Aggregated, Valid, Evolves, Kept, SameMeta,
         AboutObjects, UsersKeep, CleaningKeeps, EntriesKeep, AllKnown;
    var s := PreStatus(env.cfg, inst.status, inst.gen);
    StatusWriteKeeps(w, env, inst, s);
    CrWriteInv(inv, w, env, inst.(status := s));
    var pre := StatusWrite(w, env, inst.(status := s));
    KeptValid(w, pre.w, env.home);
    HandledInv(inv, pre.w, env, pre.inst, pre.err);
    OperandsInv(inv, known, pre.w, env, m, pre.inst);
    OperandsKeep(pre.w, env, m, pre.inst, false);
    var ops := ReconcileOperands(pre.w, env, m, pre.inst, false);
    CopyEvolves(pre.w, ops.w, env.home, pre.inst);
    HandledInv(inv, ops.w, env, pre.inst, ops.err);
    var done := Aggregated(env.cfg, pre.inst.status, pre.inst.gen, ops.results);
    StatusWriteKeeps(ops.w, env, pre.inst, done);
    CrWriteInv(inv, ops.w, env, pre.inst.(status := done));
    var post := StatusWrite(ops.w, env, pre.inst.(status := done));
    KeptValid(ops.w, post.w, env.home);
    HandledInv(inv, post.w, env, post.inst, post.err);
  }

  lemma ServeLiveInv(inv: World -> bool, known: Entry -> bool, w: World, env: Env, m: Memory, inst: CR)
    requires Inductive(inv, known, env) && Valid(w, env.home) && Copy(w, env.home, inst) && inv(w)
    requires AllKnown(known, m.entries)
    ensures var out := ServeLive(w, env, m, inst, false);
            inv(out.w) && AllKnown(known, out.m.entries)
  {
    hide ListCrs, StatusWrite, Deploy, MultipleStatus, PausedStatus, Copy, Valid, Evolves, IsPaused,
         AboutObjects, UsersKeep, CleaningKeeps, EntriesKeep, AllKnown;
    ListEffect(w, env);
    CrWriteInv(inv, w, env, inst);
    var all := ListCrs(w, env);
    CopyEvolves(w, all.w, env.home, inst);
    if all.res.Ok? {
      if all.res.value.0.Some? {
        CrWriteInv(inv, all.w, env, all.res.value.0.value.(status := MultipleStatus(all.res.value.0.value.status)));
      }
      CrWriteInv(inv, all.w, env, inst.(status := PausedStatus(inst.status, inst.gen)));
      DeployInv(inv, known, all.w, env, m, inst);
    }
  }

  lemma PassInv(inv: World -> bool, known: Entry -> bool, w: World, env: Env, m: Memory)
    requires Inductive(inv, known, env) && Valid(w, env.home) && inv(w) && AllKnown(known, m.entries)
    ensures var out := Pass(w, env, m, false);
            inv(out.w) && AllKnown(known, out.m.entries)
  {
    hide GetCr, ServeLive, ErrorHandled, ResourceWrite, CleanupPass, Without, Copy, Valid, Evolves,
         AboutObjects, UsersKeep, CleaningKeeps, EntriesKeep, AllKnown;
    ReadEffect(w, env);
    var got := GetCr(w, env);
    if got.res.Err? {
      ReadInv(inv, w, env);
    } else {
      var inst := got.res.value;
      ReadInv(inv, w, env);
      WriteAndHandleInv(inv, got.w, env, inst, AddFinalizer(inst, FINALIZER).finalizers);
      WriteAndHandleInv(inv, got.w, env, inst, AddFinalizer(RemoveFinalizer(inst, OLD_FINALIZER),
          FINALIZER).finalizers);
      CleanupInv(inv, got.w, env, inst, m.entries);
      ServeLiveInv(inv, known, got.w, env, ClearedIfNeeded(m, inst.spec), inst);
    }
  }

  lemma ReadInv(inv: World -> bool, w: World, env: Env)
    requires AboutObjects(inv) && UsersKeep(inv, env) && Valid(w, env.home) && inv(w)
    ensures inv(GetCr(w, env).w)
  {
    BeginInv(inv, w, env);
    hide Begin, Valid;
  }

  /** The property holds in every state that a run reaches. */
  lemma {:induction false} RunInv(inv: World -> bool, known: Entry -> bool, w: World, env: Env, m: Memory,
                                  bundle: seq<Entry>, steps: seq<Event>)
    requires Inductive(inv, known, env) && Valid(w, env.home) && inv(w)
    requires AllKnown(known, m.entries) && AllKnown(known, bundle)
    ensures var out := Run(w, env, m, bundle, steps, false);
            inv(out.w) && AllKnown(known, out.m.entries) && Valid(out.w, env.home)
    decreases |steps|
  {
    hide Pass, Valid, Inductive, AllKnown, Kept;
    if steps != [] {
      if steps[0].Restart? {
        RunInv(inv, known, w, env, Booted(bundle), bundle, steps[1..]);
      } else {
        var first := Pass(w, env, m, false);
        PassKept(w, env, m, false);
        KeptValid(w, first.w, env.home);
        PassInv(inv, known, w, env, m);
        RunInv(inv, known, first.w, env, first.m, bundle, steps[1..]);
      }
    }
  }
}

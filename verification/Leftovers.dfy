/** What a cleanup leaves behind when it lets go of the CR: exactly what it does not look up. */
module Leftovers {
  import opened Kube
  import opened ApiServer
  import opened Labels
  import opened Cache
  import opened Ownership
  import opened Resource
  import opened Operands
  import opened StatusReport
  import opened Controller
  import opened Tracking
  import opened Expectations
  import opened Convergence
  import opened Pausing
  import opened Cleaning
  import opened Lifecycle
  import opened Deletion
  import opened Vanishing
  import opened Coverage
  import opened Runs

  /** The object at a key is there, and it is the CR's. */
  predicate StillOwned(w: World, inst: CR, k: Key) {
    k in w.objs && OwnedBy(inst, w.objs[k])
  }

  // ---------- what is not looked up stays ----------

  /** Nothing happened at a key. */
  ghost predicate SameAt(w: World, w': World, k: Key) {
    (k in w.objs <==> k in w'.objs) && (k in w.objs ==> w'.objs[k] == w.objs[k])
  }

  /** Users changed no object, and if the key is apart from those that were looked up, nobody did anything there. */
  ghost predicate Spares(w: World, w': World, k: Key, apart: bool) {
    w'.puts == w.puts && (apart ==> SameAt(w, w', k))
  }

  predicate Apart(xs: seq<Obj>, k: Key) {
    forall x <- xs :: KeyOf(x) != k
  }

  lemma OnlyKeySameAt(w: World, w': World, at: Key, k: Key)
    requires OnlyKey(w, w', at) && at != k
    ensures SameAt(w, w', k)
  {
    assert k in w.objs <==> k in w.objs - {at};
    assert k in w'.objs <==> k in w'.objs - {at};
    assert k in w.objs ==> w.objs[k] == (w.objs - {at})[k] == (w'.objs - {at})[k];
  }

  lemma QuietPuts(w: World, env: Env, k: Key)
    requires Quiet(env, w.calls, w.calls + 1)
    ensures DeleteObject(w, env, k).w.puts == w.puts
  {
    hide Begin;
    QuietBegin(w, env, w.calls + 1);
  }

  lemma CleanedElsewhere(w: World, env: Env, inst: CR, x: Obj, k: Key)
    requires Valid(w, env.home) && Quiet(env, w.calls, Cleaned(w, env, inst, x).w.calls)
    ensures Spares(w, Cleaned(w, env, inst, x).w, k, KeyOf(x) != k)
  {
    hide GetObj, DeleteObject, OnlyKey, Valid, Evolves;
    var out, at := Cleaned(w, env, inst, x), KeyOf(x);
    CleanedCalls(w, env, inst, x);
    GetKeeps(w, env, at);
    ReadOnlyKey(w, env, at);
    var got := GetObj(w, env, at);
    if got.res.Ok? && out.w != got.w {
      FoundKey(w, env, at);
      DeleteOnlyKey(got.w, env, at);
      QuietPuts(got.w, env, at);
      if at != k {
        OnlyKeySameAt(got.w, out.w, at, k);
      }
    }
  }

  lemma {:induction false} CleanedAllElsewhere(w: World, env: Env, inst: CR, xs: seq<Obj>, k: Key)
    requires Valid(w, env.home) && Quiet(env, w.calls, CleanedAll(w, env, inst, xs).w.calls)
    ensures Spares(w, CleanedAll(w, env, inst, xs).w, k, Apart(xs, k))
    decreases |xs|
  {
    hide Cleaned, Valid, Evolves;
    if xs != [] {
      var first := Cleaned(w, env, inst, xs[0]);
      CleanedKeeps(w, env, inst, xs[0]);
      CleanedAllKeeps(first.w, env, inst, xs[1..]);
      EvolvesCalls(w, first.w);
      EvolvesCalls(first.w, CleanedAll(first.w, env, inst, xs[1..]).w);
      CleanedElsewhere(w, env, inst, xs[0], k);
      if first.res.Ok? {
        CleanedAllElsewhere(first.w, env, inst, xs[1..], k);
      }
    }
  }

  lemma ListedKinds(w: World, env: Env)
    requires Valid(w, env.home)
    ensures var r := ListObjs(w, env, ClusterTask, MANAGED_BY_LABEL, MANAGED_BY_VALUE);
            && r.w.calls == w.calls + 1
            && (r.res.Ok? ==> forall x <- r.res.value :: x.kind == ClusterTask)
  {
    hide Begin;
    BeginKeeps(w, env);
    var w1 := Begin(w, env);
    ListedOfKind(w1, env.home, w1.index, ClusterTask, MANAGED_BY_LABEL, MANAGED_BY_VALUE);
  }

  lemma {:induction false} ListedOfKind(w: World, home: Name, keys: seq<Key>, kind: Kind, tag: string, value: string)
    requires Valid(w, home)
    ensures forall x <- Listed(w, keys, kind, tag, value) :: x.kind == kind
  {
    if keys != [] {
      ListedOfKind(w, home, keys[1..], kind, tag, value);
    }
  }

  lemma QuietListSame(w: World, env: Env, kind: Kind, tag: string, value: string)
    requires env.turn(w.calls).edits == []
    ensures var w' := ListObjs(w, env, kind, tag, value).w; w'.objs == w.objs && w'.puts == w.puts
  {
    assert Begin(w, env) == w.(calls := w.calls + 1);
  }

  lemma TeardownElsewhere(w: World, env: Env, inst: CR, es: seq<Entry>, k: Key)
    requires Valid(w, env.home) && Quiet(env, w.calls, Teardown(w, env, inst, es).w.calls)
    ensures Spares(w, Teardown(w, env, inst, es).w, k, !Looked(es, k))
  {
    hide ListObjs, CleanedAll, Valid, Evolves, TasksListed, PipelinesListed, Concerned;
    var found := ListObjs(w, env, ClusterTask, MANAGED_BY_LABEL, MANAGED_BY_VALUE);
    ListKeeps(w, env, ClusterTask, MANAGED_BY_LABEL, MANAGED_BY_VALUE);
    ListedKinds(w, env);
    if found.res.Ok? {
      var xs, ys := TasksListed(es) + found.res.value, PipelinesListed(es);
      var tasks := CleanedAll(found.w, env, inst, xs);
      CleanedAllKeeps(found.w, env, inst, xs);
      CleanedAllKeeps(tasks.w, env, inst, ys);
      EvolvesCalls(found.w, tasks.w);
      EvolvesCalls(tasks.w, CleanedAll(tasks.w, env, inst, ys).w);
      QuietListSame(w, env, ClusterTask, MANAGED_BY_LABEL, MANAGED_BY_VALUE);
      LookedApart(es, found.res.value, k);
      CleanedAllElsewhere(found.w, env, inst, xs, k);
      if tasks.res.Ok? {
        CleanedAllElsewhere(tasks.w, env, inst, ys, k);
      }
    } else {
      QuietListSame(w, env, ClusterTask, MANAGED_BY_LABEL, MANAGED_BY_VALUE);
    }
  }

  lemma LookedApart(es: seq<Entry>, tasks: seq<Obj>, k: Key)
    requires forall x <- tasks :: x.kind == ClusterTask
    ensures !Looked(es, k) ==> Apart(TasksListed(es) + tasks, k) && Apart(PipelinesListed(es), k)
  {
    hide TasksListed, PipelinesListed;
    assert forall x <- TasksListed(es) :: x in TasksListed(es) + PipelinesListed(es);
    assert forall y <- PipelinesListed(es) :: y in TasksListed(es) + PipelinesListed(es);
  }

  lemma QuietWritesSame(w: World, env: Env, inst: CR)
    requires Quiet(env, w.calls, w.calls + 1)
    ensures StatusWrite(w, env, inst).w.objs == w.objs && MetaWrite(w, env, inst).w.objs == w.objs
    ensures StatusWrite(w, env, inst).w.puts == w.puts && MetaWrite(w, env, inst).w.puts == w.puts
  {
    QuietBegin(w, env, w.calls + 1);
    hide Begin;
  }

  lemma ReleaseElsewhere(w: World, env: Env, inst: CR)
    ensures w.calls < Release(w, env, inst).w.calls
    ensures Quiet(env, w.calls, Release(w, env, inst).w.calls) ==>
              Release(w, env, inst).w.objs == w.objs && Release(w, env, inst).w.puts == w.puts
  {
    hide StatusWrite, MetaWrite, Without, DeletedStatus, Released;
    var next, out := Released(inst), Release(w, env, inst);
    WriteCalls(w, env, next);
    var freed := MetaWrite(w, env, next);
    var last := freed.inst.(status := DeletedStatus(freed.inst.status, freed.inst.gen));
    WriteCalls(freed.w, env, last);
    if Quiet(env, w.calls, out.w.calls) {
      QuietWritesSame(w, env, next);
      if freed.err.None? {
        QuietWritesSame(freed.w, env, last);
      }
    }
  }

  /** A cleanup that users leave alone touches nothing that it does not look up, whether or not it lets go. */
  lemma CleanupElsewhere(w: World, env: Env, inst: CR, es: seq<Entry>, k: Key)
    requires Valid(w, env.home) && w.cr == Some(inst) && HasOurs(inst)
    requires Quiet(env, w.calls, CleanupPass(w, env, inst, es).w.calls)
    ensures Spares(w, CleanupPass(w, env, inst, es).w, k, !Looked(es, k))
  {
    hide StatusWrite, Teardown, Release, Valid, Evolves, Copy, Kept, DeletingStatus, HasOurs, Looked;
    var s := DeletingStatus(inst.status, inst.gen);
    CopyOfStored(w, env.home);
    StatusWriteKeeps(w, env, inst, s);
    WriteCalls(w, env, inst.(status := s));
    var mark := StatusWrite(w, env, inst.(status := s));
    KeptValid(w, mark.w, env.home);
    if mark.err.None? {
      CleanupIsRemoval(w, env, inst, es);
      TeardownKeeps(mark.w, env, mark.inst, es);
      var down := Teardown(mark.w, env, mark.inst, es);
      EvolvesCalls(mark.w, down.w);
      ReleaseElsewhere(down.w, env, mark.inst);
      QuietWritesSame(w, env, inst.(status := s));
      TeardownElsewhere(mark.w, env, mark.inst, es, k);
    } else {
      QuietWritesSame(w, env, inst.(status := s));
    }
  }

  // ---------- what a pass leaves behind when it lets go ----------

  /** The pass lets go of the CR, which was held until then. */
  ghost predicate Releases(w: World, env: Env, m: Memory, c: CR) {
    StillHeld(w, c) && !StillHeld(Pass(w, env, m, false).w, c)
  }

  /** Such a pass is a cleanup of this CR. */
  lemma ReleaseIsCleanup(w: World, env: Env, m: Memory, c: CR)
    requires Valid(w, env.home) && Releases(w, env, m, c) && c.nn == env.home
    ensures var got := GetCr(w, env);
            && got.res.Ok? && got.w.cr == Some(got.res.value) && HasOurs(got.res.value) && Heeded(w, env).None?
            && got.res.value.uid == c.uid && got.res.value.nn == c.nn
            && Valid(got.w, env.home) && got.w.calls == w.calls + 1 && Evolves(w, got.w)
            && Pass(w, env, m, false).w == CleanupPass(got.w, env, got.res.value, m.entries).w
  {
    hide GetCr, CleanupPass, Valid, Evolves, Copy, StillHeld, HasOurs, FindsNothingPending, Off;
    PassLetsGo(w, env, m, c);
    ReadEffect(w, env);
    var got := GetCr(w, env);
    EvolvesHeld(w, got.w, env.home, c);
    HeldIsThis(got.w, got.res.value, c);
    HomeOf(got.w, env.home);
  }

  lemma QuietRead(w: World, env: Env)
    requires Quiet(env, w.calls, w.calls + 1)
    ensures GetCr(w, env).w == w.(calls := w.calls + 1)
  {
    QuietBegin(w, env, w.calls + 1);
    hide Begin;
  }

  /** Nobody made an object the CR's during the pass. */
  ghost predicate NothingTakenDuring(w: World, env: Env, m: Memory, c: CR) {
    NothingTaken(c, m.entries, |w.puts|, Pass(w, env, m, false).w.puts)
  }

  /** A pass that lets go of the CR leaves nothing of the CR's at the keys that it looks up. */
  lemma ReleaseLeavesNothing(w: World, env: Env, m: Memory, c: CR, k: Key)
    requires Valid(w, env.home) && Releases(w, env, m, c) && c.nn == env.home
    requires NothingTakenDuring(w, env, m, c) && Concerned(m.entries, k)
    ensures !StillOwned(Pass(w, env, m, false).w, c, k)
  {
    hide GetCr, Pass, CleanupPass, Valid, Evolves, Concerned, Deprecated, OwnedBy, StillHeld, HasOurs, NothingTaken,
         Shrinks, Condemned;
    ReleaseIsCleanup(w, env, m, c);
    var got, out, es := GetCr(w, env), Pass(w, env, m, false), m.entries;
    var inst := got.res.value;
    PutsGrow(w, got.w);
    TakenPart(c, es, |w.puts|, |got.w.puts|, out.w.puts, out.w.puts);
    SameClean(out.w, out.w, c, inst, es, |got.w.puts|, out.w.puts);
    SameHeld(out.w, inst, c);
    CleanupComplete(got.w, env, inst, es);
  }

  /** What is left behind exactly: when a pass that users leave alone lets go of the CR, an object that the CR owned
      is still its own exactly if the pass does not look up its key; and then nothing about it has changed. */
  lemma ReleaseLeavesExactly(w: World, env: Env, m: Memory, c: CR, k: Key)
    requires Valid(w, env.home) && Releases(w, env, m, c) && c.nn == env.home
    requires Quiet(env, w.calls, Pass(w, env, m, false).w.calls) && StillOwned(w, c, k) && k.kind != ClusterTask
    ensures var w' := Pass(w, env, m, false).w;
            && (StillOwned(w', c, k) <==> !Concerned(m.entries, k))
            && (StillOwned(w', c, k) ==> w'.objs[k] == w.objs[k])
  {
    hide GetCr, Pass, CleanupPass, Valid, Evolves, Concerned, OwnedBy, StillHeld, HasOurs, NothingTaken, Heeded;
    ReleaseIsCleanup(w, env, m, c);
    var got := GetCr(w, env);
    CopyOfStored(got.w, env.home);
    CleanupCalls(got.w, env, got.res.value, m.entries);
    QuietRead(w, env);
    CleanupElsewhere(got.w, env, got.res.value, m.entries, k);
    if Concerned(m.entries, k) {
      assert NothingTakenDuring(w, env, m, c) by { NothingNew(c, m.entries, w.puts); }
      ReleaseLeavesNothing(w, env, m, c, k);
    }
  }

  lemma NothingNew(inst: CR, es: seq<Entry>, puts: seq<Put>)
    ensures NothingTaken(inst, es, |puts|, puts)
  {
  }

  // ---------- the lifetime of a process ----------

  lemma ReleaseWritesNothing(s: RunOut, env: Env, c: CR)
    requires Valid(s.w, env.home) && AllWellKinded(s.m.entries) && Releases(s.w, env, s.m, c) && c.nn == env.home
    ensures NoWrites(s.w, NextPass(s, env).w)
  {
    hide Pass, Valid, AllWellKinded, NoWrites, GetCr, Heeded, CleanupPass, HasOurs, Evolves;
    ReleaseIsCleanup(s.w, env, s.m, c);
    PassMoves(s.w, env, s.m);
  }

  /** Nothing is left behind: whenever a pass of a process lets go of the CR, and nobody made an object the CR's
      during that pass, no object that the process ever wrote belongs to the CR, but those from which a pass has
      since moved their entry away for good. */
  lemma NothingLeftBehind(w: World, env: Env, bundle: seq<Entry>, n: nat, c: CR)
    requires Valid(w, env.home) && AllWellKinded(bundle) && c.nn == env.home
    requires var s := After(w, env, bundle, n);
             Releases(s.w, env, s.m, c) && NothingTakenDuring(s.w, env, s.m, c)
    ensures var out := NextPass(After(w, env, bundle, n), env).w;
            forall i | |w.audit| <= i < |out.audit| ::
              WritesObj(out.audit[i]) && StillOwned(out, c, out.audit[i].key) ==>
                MovedAway(w, env, bundle, n, i, out.audit[i].key)
  {
    hide After, Pass, Valid, AllWellKinded, StillHeld, Releases, NothingTakenDuring, Concerned, MovedAway,
         DistinctEntries, StillOwned;
    var s := After(w, env, bundle, n);
    var out := NextPass(s, env).w;
    AfterSound(w, env, bundle, n);
    ReleaseWritesNothing(s, env, c);
    forall i | |w.audit| <= i < |out.audit| && WritesObj(out.audit[i]) && StillOwned(out, c, out.audit[i].key)
      ensures MovedAway(w, env, bundle, n, i, out.audit[i].key)
    {
      var k := out.audit[i].key;
      assert s.w.audit[i] == out.audit[i];
      WrittenIsLookedUp(w, env, bundle, n, i);
      if Concerned(s.m.entries, k) {
        ReleaseLeavesNothing(s.w, env, s.m, c, k);
      }
    }
  }

  /** And exactly those are left: when users leave that pass alone, an object that the process wrote and that the
      CR still owned is its own afterwards exactly if its entry was moved away for good. */
  lemma LeftBehindExactly(w: World, env: Env, bundle: seq<Entry>, n: nat, c: CR, i: nat)
    requires Valid(w, env.home) && AllWellKinded(bundle) && DistinctEntries(env.home.ns, bundle) && c.nn == env.home
    requires var s := After(w, env, bundle, n);
             && Releases(s.w, env, s.m, c) && Quiet(env, s.w.calls, NextPass(s, env).w.calls)
             && |w.audit| <= i < |s.w.audit| && WritesObj(s.w.audit[i]) && StillOwned(s.w, c, s.w.audit[i].key)
    ensures var s := After(w, env, bundle, n);
            var k, out := s.w.audit[i].key, NextPass(s, env).w;
            && (StillOwned(out, c, k) <==> MovedAway(w, env, bundle, n, i, k))
            && (StillOwned(out, c, k) ==> out.objs[k] == s.w.objs[k])
  {
    hide After, Pass, Valid, AllWellKinded, StillHeld, Releases, Concerned, MovedAway, DistinctEntries, OwnedBy, Quiet;
    var s := After(w, env, bundle, n);
    var k := s.w.audit[i].key;
    AfterSound(w, env, bundle, n);
    WrittenIsLookedUp(w, env, bundle, n, i);
    if k.kind == ClusterTask {
      ClusterTasksUnnamed(s.m.entries, k);
      assert false;
    }
    ReleaseLeavesExactly(s.w, env, s.m, c, k);
  }

  /** No operand list holds ClusterTasks. */
  lemma ClusterTasksUnnamed(es: seq<Entry>, k: Key)
    requires AllWellKinded(es) && k.kind == ClusterTask
    ensures !Concerned(es, k)
  {
    hide Concerned;
    LookedUpExactly(es, k);
    forall j | 0 <= j < |es|
      ensures KeyOf(es[j].obj) != k
    {
      assert es[j] in es;
    }
  }

  // ---------- moving a namespace ----------

  /** Some entry stands for an object of this kind and name. */
  ghost predicate StandsFor(es: seq<Entry>, k: Key) {
    exists i :: 0 <= i < |es| && KindOf(es[i].rule) == k.kind && es[i].obj.name == k.name
  }

  /** After a full pass for a CR, of the objects whose namespace the spec gives cleanup looks up those in the
      namespaces of this CR, and no others. */
  lemma MovedIsForgottenExactly(w: World, env: Env, c: Versions, inst: CR, es: seq<Entry>, k: Key)
    requires ReconcileAll(w, env, c, inst, es, false).err.None? && AllWellKinded(es) && !Fixed(k.kind)
    ensures Concerned(ReconcileAll(w, env, c, inst, es, false).entries, k)
            <==> StandsFor(es, k) && k.ns == Place(k.kind, inst.nn.ns, inst.spec)
  {
    hide ReconcileAll, Expected, Concerned;
    var ns, out := inst.nn.ns, ReconcileAll(w, env, c, inst, es, false).entries;
    ListWrittenBack(w, env, c, inst, es);
    LookedUpExactly(out, k);
    forall j | 0 <= j < |es| && (KindOf(es[j].rule) == k.kind || KeyOf(out[j].obj).kind == k.kind)
      ensures KeyOf(out[j].obj) == Key(k.kind, Place(k.kind, ns, inst.spec), es[j].obj.name)
      ensures KindOf(es[j].rule) == k.kind
    {
      assert es[j] in es;
      ExpectedKey(inst, env.cfg, es[j]);
      TargetPlace(ns, inst.spec, inst.spec, es[j]);
    }
    if Names(out, k) {
      var j :| 0 <= j < |out| && KeyOf(out[j].obj) == k;
      assert KindOf(es[j].rule) == k.kind && es[j].obj.name == k.name;
    }
    if StandsFor(es, k) && k.ns == Place(k.kind, ns, inst.spec) {
      var j :| 0 <= j < |es| && KindOf(es[j].rule) == k.kind && es[j].obj.name == k.name;
      assert KeyOf(out[j].obj) == k;
    }
  }

  /** What a move leaves behind: once a pass went through for a CR with another namespace for this kind, an object
      of the kind anywhere else, owned or not, is stored unchanged after a cleanup that users leave alone, whether
      or not that lets go of the CR. */
  lemma MovedStaysBehind(w: World, env: Env, c: Versions, inst: CR, es: seq<Entry>, w': World, inst': CR, k: Key)
    requires ReconcileAll(w, env, c, inst, es, false).err.None? && AllWellKinded(es) && !Fixed(k.kind)
    requires k.ns != Place(k.kind, inst.nn.ns, inst.spec) && k in w'.objs
    requires Valid(w', env.home) && w'.cr == Some(inst') && HasOurs(inst')
    requires var left := ReconcileAll(w, env, c, inst, es, false).entries;
             Quiet(env, w'.calls, CleanupPass(w', env, inst', left).w.calls)
    ensures var out := CleanupPass(w', env, inst', ReconcileAll(w, env, c, inst, es, false).entries);
            k in out.w.objs && out.w.objs[k] == w'.objs[k]
  {
    hide ReconcileAll, CleanupPass, Valid, HasOurs, Concerned;
    MovedIsForgottenExactly(w, env, c, inst, es, k);
    CleanupElsewhere(w', env, inst', ReconcileAll(w, env, c, inst, es, false).entries, k);
  }

  /** And exactly that: when a pass that users leave alone then lets go of the CR, an object of the CR's that some
      entry stands for is still its own exactly if it is not where the spec puts its kind. */
  lemma MovedStaysExactly(w: World, env: Env, c: Versions, inst: CR, es: seq<Entry>,
                          w': World, m': Memory, c': CR, k: Key)
    requires ReconcileAll(w, env, c, inst, es, false).err.None? && AllWellKinded(es)
    requires !Fixed(k.kind) && StandsFor(es, k)
    requires Valid(w', env.home) && m'.entries == ReconcileAll(w, env, c, inst, es, false).entries
    requires Releases(w', env, m', c') && c'.nn == env.home
    requires Quiet(env, w'.calls, Pass(w', env, m', false).w.calls) && StillOwned(w', c', k)
    ensures StillOwned(Pass(w', env, m', false).w, c', k) <==> k.ns != Place(k.kind, inst.nn.ns, inst.spec)
  {
    hide ReconcileAll, Pass, Valid, Releases, Quiet, StillOwned, Concerned;
    MovedIsForgottenExactly(w, env, c, inst, es, k);
    ReleaseLeavesExactly(w', env, m', c', k);
  }

  // ---------- restarting ----------

  /** A process that has heeded no spec has the lists of its bundle. */
  lemma {:induction false} UnheededKeepsBundle(w: World, env: Env, bundle: seq<Entry>, n: nat)
    requires Valid(w, env.home) && AllWellKinded(bundle)
    requires forall q: nat :: q < n ==> Heeded(After(w, env, bundle, q).w, env).None?
    ensures After(w, env, bundle, n).m.entries == bundle
    decreases n
  {
    hide After, Pass, Valid, AllWellKinded, DistinctEntries, NoWrites, Heeded;
    if n == 0 {
      AfterNone(w, env, bundle);
    } else {
      UnheededKeepsBundle(w, env, bundle, n - 1);
      AfterSound(w, env, bundle, n - 1);
      AfterNext(w, env, bundle, n - 1);
      var s := After(w, env, bundle, n - 1);
      PassMoves(s.w, env, s.m);
    }
  }

  /** What a restart leaves behind: when the operator restarts, and lets go of the CR before it has heeded any spec
      again, an object of the CR's is still its own afterwards, unchanged, exactly if no object of the bundle, as
      it is shipped, has its key: where the objects were put is forgotten. */
  lemma RestartForgetsExactly(w: World, env: Env, bundle: seq<Entry>, n: nat, c: CR, k: Key)
    requires Valid(w, env.home) && AllWellKinded(bundle) && c.nn == env.home
    requires forall q: nat :: q < n ==> Heeded(After(w, env, bundle, q).w, env).None?
    requires var s := After(w, env, bundle, n);
             && Releases(s.w, env, s.m, c) && Quiet(env, s.w.calls, NextPass(s, env).w.calls)
             && StillOwned(s.w, c, k) && k.kind != ClusterTask
    ensures var s, out := After(w, env, bundle, n), NextPass(After(w, env, bundle, n), env).w;
            && (StillOwned(out, c, k) <==> forall e <- bundle :: KeyOf(e.obj) != k)
            && (StillOwned(out, c, k) ==> out.objs[k] == s.w.objs[k])
  {
    hide After, Pass, Valid, AllWellKinded, Releases, Quiet, OwnedBy, Concerned, DistinctEntries, Heeded;
    var s := After(w, env, bundle, n);
    AfterSound(w, env, bundle, n);
    UnheededKeepsBundle(w, env, bundle, n);
    LookedUpExactly(bundle, k);
    ReleaseLeavesExactly(s.w, env, s.m, c, k);
  }

  /** It does happen: left alone, an operator that restarts while the CR is being deleted, and the CR owns nothing
      at the bundle's keys, lets go of the CR at once, and every object of the CR's stays as it is. */
  lemma RestartOrphans(w: World, env: Env, bundle: seq<Entry>)
    requires Valid(w, env.home) && Calm(env, w.calls) && RefsAtHome(w, env.home) && env.home.name != ""
    requires w.cr.Some? && w.cr.value.deleting && HasOurs(w.cr.value) && !NeedsMigration(w.cr.value)
    requires Clean(w, w.cr.value, bundle)
    ensures var inst, out := w.cr.value, Pass(w, env, Booted(bundle), false);
            && out.verdict == Finished && !StillHeld(out.w, inst)
            && forall k <- w.objs :: OwnedBy(inst, w.objs[k]) && k.kind != ClusterTask ==>
                 k in out.w.objs && out.w.objs[k] == w.objs[k]
  {
    hide Pass, CleanupPass, Valid, Calm, RefsAtHome, HasOurs, NeedsMigration, StillHeld, Concerned, OwnedBy, Deprecated,
         Clean;
    var inst, m, read := w.cr.value, Booted(bundle), w.(calls := w.calls + 1);
    HomeOf(w, env.home);
    CleanupPassOf(w, env, m);
    RefsSame(w, read, env.home);
    CleanSame(w, read, inst, bundle);
    CleanupFinishes(read, env, inst, bundle);
    var out := Pass(w, env, m, false);
    CalmIsQuiet(env, w.calls, read.calls, out.w.calls);
    forall k <- w.objs | OwnedBy(inst, w.objs[k]) && k.kind != ClusterTask
      ensures k in out.w.objs && out.w.objs[k] == w.objs[k]
    {
      CleanupElsewhere(read, env, inst, bundle, k);
      CleanUnconcerned(w, inst, bundle, k);
    }
  }

  lemma CleanUnconcerned(w: World, inst: CR, es: seq<Entry>, k: Key)
    requires Clean(w, inst, es) && StillOwned(w, inst, k)
    ensures !Concerned(es, k)
  {
    hide OwnedBy, Concerned;
  }
}

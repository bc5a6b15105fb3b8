/** Left alone, cleaning up succeeds, and a CR that is being deleted vanishes. */
module Vanishing {
  import opened Kube
  import opened ApiServer
  import opened Labels
  import opened Ownership
  import opened Resource
  import opened Operands
  import opened StatusReport
  import opened Controller
  import opened Tracking
  import opened Convergence
  import opened Cleaning
  import opened Deletion

  // ---------- tearing down ----------

  /** The CR does not own what is stored at a key. */
  ghost predicate Disowned(w: World, inst: CR, k: Key) {
    k in w.objs ==> !OwnedBy(inst, w.objs[k])
  }

  lemma CalmDelete(w: World, env: Env, k: Key)
    requires Calm(env, w.calls) && k in w.objs
    ensures var r := DeleteObject(w, env, k);
            && r.res == Ok(()) && r.w.cr == w.cr && r.w.puts == w.puts && r.w.calls == w.calls + 1
            && (RefsAtHome(w, env.home) ==> RefsAtHome(r.w, env.home))
  {
    hide Begin;
    CalmBegin(w, env);
  }

  lemma CleanedCalmly(w: World, env: Env, inst: CR, x: Obj)
    requires Valid(w, env.home) && Calm(env, w.calls) && RefsAtHome(w, env.home)
    requires inst.nn == env.home && inst.nn.name != ""
    ensures var out := Cleaned(w, env, inst, x);
            && out.res.Ok? && out.w.cr == w.cr && out.w.puts == w.puts && w.calls <= out.w.calls
            && RefsAtHome(out.w, env.home)
            && (Disowned(w, inst, KeyOf(x)) ==> out.res.value.deleted && out.w == w.(calls := w.calls + 1))
  {
    hide Valid, GetObj, DeleteObject, OwnedBy, IsResourceOwned, RefsAtHome, Calm;
    var k, out := KeyOf(x), Cleaned(w, env, inst, x);
    CalmGet(w, env, k);
    var got := GetObj(w, env, k);
    RefsSame(w, got.w, env.home);
    if got.res.Ok? {
      FoundKey(w, env, k);
      RefsOf(w, env.home, k);
      TestExact(inst, x, got.res.value);
      OwnedDecoded(inst, w.objs[k], got.res.value);
      CalmIsQuiet(env, w.calls, got.w.calls, 0);
      CalmDelete(got.w, env, k);
    }
  }

  lemma RefsSame(w: World, w': World, home: Name)
    requires w'.objs == w.objs
    ensures RefsAtHome(w', home) == RefsAtHome(w, home)
  {
  }

  lemma {:induction false} CleanedAllCalmly(w: World, env: Env, inst: CR, xs: seq<Obj>)
    requires Valid(w, env.home) && Calm(env, w.calls) && RefsAtHome(w, env.home)
    requires inst.nn == env.home && inst.nn.name != ""
    ensures var out := CleanedAll(w, env, inst, xs);
            && out.res.Ok? && out.w.cr == w.cr && out.w.puts == w.puts && w.calls <= out.w.calls
            && RefsAtHome(out.w, env.home)
            && ((forall x <- xs :: Disowned(w, inst, KeyOf(x))) ==>
                  Pending(out.res.value) == 0 && out.w == w.(calls := out.w.calls))
    decreases |xs|
  {
    hide Cleaned, Valid, Evolves, RefsAtHome, Disowned, Calm;
    if xs != [] {
      var first := Cleaned(w, env, inst, xs[0]);
      CleanedKeeps(w, env, inst, xs[0]);
      CleanedCalmly(w, env, inst, xs[0]);
      CalmIsQuiet(env, w.calls, first.w.calls, 0);
      CleanedAllCalmly(first.w, env, inst, xs[1..]);
      if forall x <- xs :: Disowned(w, inst, KeyOf(x)) {
        forall x <- xs[1..]
          ensures Disowned(first.w, inst, KeyOf(x))
        {
          SameDisowned(w, first.w, inst, KeyOf(x));
        }
        var out := CleanedAll(w, env, inst, xs);
        assert out.res.value[0] == first.res.value;
        assert out.res.value[1..] == CleanedAll(first.w, env, inst, xs[1..]).res.value;
      }
    }
  }

  lemma SameDisowned(w: World, w': World, inst: CR, k: Key)
    requires w'.objs == w.objs
    ensures Disowned(w', inst, k) == Disowned(w, inst, k)
  {
  }

  lemma CleanMeansDisowned(w: World, home: Name, inst: CR, es: seq<Entry>, x: Obj)
    requires Valid(w, home) && Clean(w, inst, es)
    requires x in TasksListed(es) + Listed(w, w.index, ClusterTask, MANAGED_BY_LABEL, MANAGED_BY_VALUE)
                  + PipelinesListed(es)
    ensures Disowned(w, inst, KeyOf(x))
  {
    hide OwnedBy, TasksListed, PipelinesListed, Listed;
    if x in Listed(w, w.index, ClusterTask, MANAGED_BY_LABEL, MANAGED_BY_VALUE) {
      ListedSound(w, w.index, x);
    } else {
      assert x in TasksListed(es) + PipelinesListed(es);
    }
  }

  lemma CalmList(w: World, env: Env)
    requires Calm(env, w.calls)
    ensures var r := ListObjs(w, env, ClusterTask, MANAGED_BY_LABEL, MANAGED_BY_VALUE);
            && r.w == w.(calls := w.calls + 1)
            && r.res == Ok(Listed(r.w, r.w.index, ClusterTask, MANAGED_BY_LABEL, MANAGED_BY_VALUE))
  {
    hide Begin, Listed;
    CalmBegin(w, env);
  }

  /** Left alone, tearing down makes no error, and has nothing pending once the CR owns nothing any more. */
  lemma TeardownCalmly(w: World, env: Env, inst: CR, es: seq<Entry>)
    requires Valid(w, env.home) && Calm(env, w.calls) && RefsAtHome(w, env.home)
    requires inst.nn == env.home && inst.nn.name != ""
    ensures var down := Teardown(w, env, inst, es);
            && down.res.Ok? && down.w.cr == w.cr && down.w.puts == w.puts && w.calls <= down.w.calls
            && RefsAtHome(down.w, env.home)
            && (Clean(w, inst, es) ==> down.res == Ok(0))
  {
    hide CleanedAll, Valid, Evolves, TasksListed, PipelinesListed, RefsAtHome, Disowned, OwnedBy, Calm, Listed,
         ListObjs, Clean;
    CalmList(w, env);
    var found := ListObjs(w, env, ClusterTask, MANAGED_BY_LABEL, MANAGED_BY_VALUE);
    ListKeeps(w, env, ClusterTask, MANAGED_BY_LABEL, MANAGED_BY_VALUE);
    var xs, ys := TasksListed(es) + found.res.value, PipelinesListed(es);
    CalmIsQuiet(env, w.calls, found.w.calls, 0);
    RefsSame(w, found.w, env.home);
    CleanedAllCalmly(found.w, env, inst, xs);
    CleanedAllKeeps(found.w, env, inst, xs);
    var tasks := CleanedAll(found.w, env, inst, xs);
    CalmIsQuiet(env, w.calls, tasks.w.calls, 0);
    CleanedAllCalmly(tasks.w, env, inst, ys);
    if Clean(w, inst, es) {
      CleanSame(w, found.w, inst, es);
      forall x <- xs + ys
        ensures Disowned(found.w, inst, KeyOf(x))
      {
        CleanMeansDisowned(found.w, env.home, inst, es, x);
      }
      forall x <- xs
        ensures Disowned(found.w, inst, KeyOf(x))
      {
        assert x in xs + ys;
      }
      forall y <- ys
        ensures Disowned(tasks.w, inst, KeyOf(y))
      {
        assert y in xs + ys;
        SameDisowned(found.w, tasks.w, inst, KeyOf(y));
      }
    }
  }

  lemma CleanSame(w: World, w': World, inst: CR, es: seq<Entry>)
    requires w'.objs == w.objs
    ensures Clean(w', inst, es) == Clean(w, inst, es)
  {
    hide Owns;
  }

  // ---------- a cleanup pass ----------

  /** Nobody but the operator holds the CR. */
  predicate OnlyOurs(c: CR) {
    forall f <- c.finalizers :: f == FINALIZER || f == OLD_FINALIZER
  }

  lemma ReleaseCalmly(w: World, env: Env, inst: CR)
    requires Calm(env, w.calls) && w.cr == Some(inst) && inst.deleting && HasOurs(inst)
    ensures var out := Release(w, env, inst);
            && out.err.None? && !StillHeld(out.w, inst) && (OnlyOurs(inst) ==> out.w.cr.None?)
            && out.w.puts == w.puts && out.w.objs == w.objs
  {
    CalmBegin(w, env);
    var freed := MetaWrite(w, env, Released(inst));
    assert freed.w.cr.None? || freed.w.cr == Some(freed.inst);
    assert freed.w.cr.Some? ==> !HasOurs(freed.inst);
    ReleasedOurs(inst);
    CalmBegin(freed.w, env);
    hide Begin, HasOurs, OnlyOurs;
  }

  lemma ReleasedOurs(inst: CR)
    ensures OnlyOurs(inst) ==> Released(inst).finalizers == []
  {
    var fs := Released(inst).finalizers;
    assert fs == [] || fs[0] in fs;
  }

  /** Left alone, a cleanup makes no error, and it lets go of the CR as soon as the CR owns nothing any more; the
      CR vanishes then, unless somebody else holds it. */
  lemma CleanupFinishes(w: World, env: Env, inst: CR, es: seq<Entry>)
    requires Valid(w, env.home) && Calm(env, w.calls) && RefsAtHome(w, env.home)
    requires w.cr == Some(inst) && inst.deleting && HasOurs(inst) && inst.nn.name != ""
    ensures var out := CleanupPass(w, env, inst, es);
            && out.err.None? && out.w.puts == w.puts
            && (StillHeld(out.w, inst) ==>
                  out.w.cr.Some? && SameMeta(out.w.cr.value, inst) && out.w.cr.value.finalizers == inst.finalizers
                  && RefsAtHome(out.w, env.home))
            && (!StillHeld(out.w, inst) && OnlyOurs(inst) ==> out.w.cr.None?)
            && (Clean(w, inst, es) ==> !StillHeld(out.w, inst))
  {
    hide StatusWrite, Removal, Valid, Clean, DeletingStatus, HasOurs, Calm, RefsAtHome, Kept, OnlyOurs, StillHeld;
    var s := DeletingStatus(inst.status, inst.gen);
    CopyOfStored(w, env.home);
    CalmStatusWrite(w, env, inst, s);
    StatusWriteKeeps(w, env, inst, s);
    var mark := StatusWrite(w, env, inst.(status := s));
    KeptValid(w, mark.w, env.home);
    CleanupIsRemoval(w, env, inst, es);
    CalmIsQuiet(env, w.calls, mark.w.calls, 0);
    RefsSame(w, mark.w, env.home);
    CleanSame(w, mark.w, inst, es);
    SameClean(mark.w, mark.w, inst, mark.inst, es, 0, []);
    SameHold(inst, mark.inst);
    RemovalCalmly(mark.w, env, mark.inst, es);
    SameHeld(CleanupPass(w, env, inst, es).w, inst, mark.inst);
  }

  lemma SameHold(a: CR, b: CR)
    requires a.finalizers == b.finalizers
    ensures HasOurs(a) == HasOurs(b) && OnlyOurs(a) == OnlyOurs(b)
  {
  }

  lemma RemovalCalmly(w: World, env: Env, inst: CR, es: seq<Entry>)
    requires Valid(w, env.home) && Calm(env, w.calls) && RefsAtHome(w, env.home)
    requires w.cr == Some(inst) && inst.deleting && HasOurs(inst) && inst.nn.name != ""
    ensures var out := Removal(w, env, inst, es);
            && out.err.None? && out.w.puts == w.puts
            && (StillHeld(out.w, inst) ==> out.w.cr == Some(inst) && RefsAtHome(out.w, env.home))
            && (!StillHeld(out.w, inst) && OnlyOurs(inst) ==> out.w.cr.None?)
            && (Clean(w, inst, es) ==> !StillHeld(out.w, inst))
  {
    hide Release, Teardown, Valid, Clean, HasOurs, Calm, RefsAtHome, OnlyOurs, StillHeld;
    assert inst.nn == env.home by { HomeOf(w, env.home); }
    TeardownCalmly(w, env, inst, es);
    var down := Teardown(w, env, inst, es);
    CalmIsQuiet(env, w.calls, down.w.calls, 0);
    HeldHere(down.w, inst);
    ReleaseCalmly(down.w, env, inst);
  }

  lemma HomeOf(w: World, home: Name)
    requires Valid(w, home) && w.cr.Some?
    ensures w.cr.value.nn == home
  {
  }

  // ---------- a deleted CR vanishes ----------

  /** All objects that wait to be removed are removed, in any order. */
  predicate Collects(edits: seq<Edit>, keys: set<Key>) {
    && (forall e <- edits :: e.FinishDelete?)
    && (forall k <- keys :: FinishDelete(k) in edits)
  }

  lemma CollectOne(w: World, home: Name, k: Key)
    ensures var w' := ApplyEdit(w, home, FinishDelete(k));
            && (forall x <- w'.objs :: x in w.objs && w'.objs[x] == w.objs[x])
            && (k in w'.objs ==> !w'.objs[k].terminating)
            && w'.cr == w.cr && w'.calls == w.calls && w'.others == w.others
  {
  }

  lemma {:induction false} CollectAll(w: World, home: Name, edits: seq<Edit>)
    requires forall e <- edits :: e.FinishDelete?
    ensures var w' := ApplyEdits(w, home, edits);
            && (forall x <- w'.objs :: x in w.objs && w'.objs[x] == w.objs[x])
            && (forall k :: FinishDelete(k) in edits && k in w'.objs ==> !w'.objs[k].terminating)
            && w'.cr == w.cr && w'.calls == w.calls && w'.others == w.others
    decreases |edits|
  {
    hide ApplyEdit;
    if edits != [] {
      assert edits[0] in edits;
      CollectOne(w, home, edits[0].key);
      var w1 := ApplyEdit(w, home, edits[0]);
      CollectAll(w1, home, edits[1..]);
      var w' := ApplyEdits(w1, home, edits[1..]);
      forall k | FinishDelete(k) in edits && k in w'.objs
        ensures !w'.objs[k].terminating
      {
        assert edits[0] == FinishDelete(k) || FinishDelete(k) in edits[1..];
      }
    }
  }

  /** Once nothing live is left, collecting what is dying leaves nothing. */
  lemma CollectedIsClean(w: World, home: Name, inst: CR, es: seq<Entry>, edits: seq<Edit>)
    requires Condemned(w, inst, es) && Collects(edits, DyingOwned(w, inst, es)) && RefsAtHome(w, home)
    ensures var w' := ApplyEdits(w, home, edits); Clean(w', inst, es) && RefsAtHome(w', home)
  {
    hide Owns, ApplyEdits;
    CollectAll(w, home, edits);
    var w' := ApplyEdits(w, home, edits);
    forall k <- w'.objs
      ensures !Owns(inst, es, k, w'.objs[k])
    {
      assert !Owns(inst, es, k, w.objs[k]) || k in DyingOwned(w, inst, es);
    }
  }

  /** A calm pass for a CR that is being deleted is a cleanup. */
  lemma CleanupPassOf(w: World, env: Env, m: Memory)
    requires Valid(w, env.home) && Calm(env, w.calls) && w.cr.Some?
    requires w.cr.value.deleting && HasOurs(w.cr.value) && !NeedsMigration(w.cr.value)
    ensures var read := w.(calls := w.calls + 1);
            var clean := CleanupPass(read, env, w.cr.value, m.entries);
            && Valid(read, env.home) && Calm(env, read.calls)
            && Pass(w, env, m, false).w == clean.w
            && (clean.err.None? ==> Pass(w, env, m, false).verdict == Finished)
            && (clean.err.None? ==> Pass(w, env, m, false).m.entries == m.entries)
  {
    hide CleanupPass, Valid, HasOurs, NeedsMigration;
    CalmBegin(w, env);
    LaterValid(w, env);
    CalmIsQuiet(env, w.calls, w.calls + 1, 0);
    hide Begin;
  }

  lemma DyingBounded(w: World, w': World, inst: CR, es: seq<Entry>)
    requires Shrinks(w, w', inst, es)
    ensures |DyingOwned(w', inst, es)| <= |LiveOwned(w, inst, es)| + |DyingOwned(w, inst, es)|
  {
    hide Owns;
    var all := LiveOwned(w, inst, es) + DyingOwned(w, inst, es);
    assert DyingOwned(w', inst, es) <= all;
    SubsetSize(DyingOwned(w', inst, es), all);
    assert LiveOwned(w, inst, es) !! DyingOwned(w, inst, es);
  }

  /** A deleted CR vanishes in a bounded number of steps: left alone, one pass marks everything that the CR owns,
      at most as many objects as it owned are then collected, in any order, and the next pass lets the CR go. It
      is gone after the first pass already if it owned nothing. */
  lemma DeletedCrVanishes(w: World, env: Env, m: Memory, collected: seq<Edit>)
    requires Valid(w, env.home) && Calm(env, w.calls) && RefsAtHome(w, env.home) && env.home.name != ""
    requires w.cr.Some? && w.cr.value.deleting && OnlyOurs(w.cr.value) && HasOurs(w.cr.value)
    requires !NeedsMigration(w.cr.value)
    requires Collects(collected, DyingOwned(Pass(w, env, m, false).w, w.cr.value, m.entries))
    ensures var inst, one := w.cr.value, Pass(w, env, m, false);
            var two := Pass(ApplyEdits(one.w, env.home, collected), env, one.m, false);
            && one.verdict == Finished && LiveOwned(one.w, inst, m.entries) == {}
            && |DyingOwned(one.w, inst, m.entries)|
               <= |LiveOwned(w, inst, m.entries)| + |DyingOwned(w, inst, m.entries)|
            && (one.w.cr.Some? ==> two.verdict == Finished && two.w.cr.None?)
            && (Clean(w, inst, m.entries) ==> one.w.cr.None?)
  {
    hide Pass, Valid, Calm, RefsAtHome, OnlyOurs, CleanupPass, Collects, ApplyEdits, Clean, HasOurs, StillHeld,
         NeedsMigration, LiveOwned, DyingOwned, Condemned, Shrinks;
    var inst, one, es := w.cr.value, Pass(w, env, m, false), m.entries;
    var read := w.(calls := w.calls + 1);
    HomeOf(w, env.home);
    CleanupPassOf(w, env, m);
    RefsSame(w, read, env.home);
    CleanSame(w, read, inst, es);
    CleanupFinishes(read, env, inst, es);
    assert NothingTaken(inst, es, |read.puts|, one.w.puts);
    CleanupComplete(read, env, inst, es);
    CondemnedMeansNoneLive(one.w, inst, es);
    SameOwned(w, read, inst, es);
    DyingBounded(read, one.w, inst, es);
    if one.w.cr.Some? {
      assert StillHeld(one.w, inst);
      var mid, next := ApplyEdits(one.w, env.home, collected), one.w.cr.value;
      PassKept(w, env, m, false);
      KeptValid(w, one.w, env.home);
      EditsKeep(one.w, env.home, collected);
      CollectedIsClean(one.w, env.home, inst, es, collected);
      CollectedRest(one.w, env.home, collected, inst, es);
      CleanupCallsUp(w, env, m);
      CalmIsQuiet(env, w.calls, mid.calls, 0);
      SameHold(next, inst);
      SameFinalizers(next, inst);
      CleanupPassOf(mid, env, one.m);
      var read' := mid.(calls := mid.calls + 1);
      RefsSame(mid, read', env.home);
      CleanSame(mid, read', inst, es);
      SameClean(read', read', inst, next, es, 0, []);
      CleanupFinishes(read', env, next, es);
    }
  }

  /** If the CR still has the old finalizer, one more pass before that replaces it and touches nothing else. */
  lemma DeletedCrMigrates(w: World, env: Env, m: Memory)
    requires Valid(w, env.home) && Calm(env, w.calls)
    requires w.cr.Some? && w.cr.value.deleting && NeedsMigration(w.cr.value)
    ensures var inst, out := w.cr.value, Pass(w, env, m, false);
            && out.verdict == Finished && out.w.objs == w.objs && out.m.entries == m.entries
            && out.w.cr.Some? && out.w.cr.value.deleting && HasOurs(out.w.cr.value) && !NeedsMigration(out.w.cr.value)
            && (OnlyOurs(inst) ==> OnlyOurs(out.w.cr.value))
  {
    hide ResourceWrite, Valid, Calm, Without, IsPaused;
    CalmBegin(w, env);
    LaterValid(w, env);
    CalmIsQuiet(env, w.calls, w.calls + 1, 0);
    var inst := w.cr.value;
    var next := AddFinalizer(RemoveFinalizer(inst, OLD_FINALIZER), FINALIZER);
    NoMoreOldFinalizer(inst);
    CalmResourceWrite(w.(calls := w.calls + 1), env, inst, next.finalizers);
    assert next == inst.(finalizers := next.finalizers);
    hide Begin;
  }

  lemma CondemnedMeansNoneLive(w: World, inst: CR, es: seq<Entry>)
    requires Condemned(w, inst, es)
    ensures LiveOwned(w, inst, es) == {}
  {
    hide Owns;
  }

  lemma SameOwned(w: World, w': World, inst: CR, es: seq<Entry>)
    requires w'.objs == w.objs
    ensures LiveOwned(w', inst, es) == LiveOwned(w, inst, es) && DyingOwned(w', inst, es) == DyingOwned(w, inst, es)
  {
    hide Owns;
  }

  lemma CollectedRest(w: World, home: Name, edits: seq<Edit>, inst: CR, es: seq<Entry>)
    requires Collects(edits, DyingOwned(w, inst, es))
    ensures ApplyEdits(w, home, edits).cr == w.cr && ApplyEdits(w, home, edits).calls == w.calls
  {
    hide ApplyEdits, DyingOwned;
    CollectAll(w, home, edits);
  }

  lemma CleanupCallsUp(w: World, env: Env, m: Memory)
    requires Valid(w, env.home) && Calm(env, w.calls) && w.cr.Some?
    requires w.cr.value.deleting && HasOurs(w.cr.value) && !NeedsMigration(w.cr.value)
    ensures w.calls <= Pass(w, env, m, false).w.calls
  {
    hide Pass, Valid, CleanupPass, HasOurs, NeedsMigration, Calm;
    CleanupPassOf(w, env, m);
    var read := w.(calls := w.calls + 1);
    CopyOfStored(read, env.home);
    CleanupCalls(read, env, w.cr.value, m.entries);
  }
}

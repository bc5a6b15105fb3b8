/** What tearing down deletes: only what the CR owns, and never by an index out of bounds. */
module Deletion {
  import opened Kube
  import opened ApiServer
  import opened Labels
  import opened Ownership
  import opened Resource
  import opened Operands
  import opened Controller
  import opened Tracking
  import opened Cleaning

  // ---------- the index is in bounds ----------

  /** Nobody puts owner references on objects outside the CR's namespace; the operator puts none there. */
  ghost predicate RefsAtHome(w: World, home: Name) {
    forall k <- w.objs :: w.objs[k].ownerRefs != [] ==> k.ns == home.ns
  }

  /** Then the ownership test is exact and its index in bounds. */
  lemma TestExact(inst: CR, x: Obj, found: Obj)
    requires inst.nn.name != "" && found.ns == x.ns && (found.ownerRefs != [] ==> found.ns == inst.nn.ns)
    ensures IsResourceOwned(inst, x, found) == Ok(OwnedBy(inst, found))
  {
  }

  /** Users put no owner references on objects outside the CR's namespace. */
  ghost predicate NoForeignRefs(env: Env) {
    forall n: nat :: forall e <- env.turn(n).edits :: e.PutObj? && e.ownerRefs != [] ==> e.key.ns == env.home.ns
  }

  lemma EditKeepsRefs(w: World, home: Name, e: Edit)
    requires Valid(w, home) && RefsAtHome(w, home)
    requires e.PutObj? && e.ownerRefs != [] ==> e.key.ns == home.ns
    ensures RefsAtHome(ApplyEdit(w, home, e), home)
  {
    hide Valid;
  }

  lemma {:induction false} EditsKeepRefs(w: World, home: Name, edits: seq<Edit>)
    requires Valid(w, home) && RefsAtHome(w, home)
    requires forall e <- edits :: e.PutObj? && e.ownerRefs != [] ==> e.key.ns == home.ns
    ensures RefsAtHome(ApplyEdits(w, home, edits), home)
    decreases |edits|
  {
    hide Evolves, Valid, RefsAtHome, ApplyEdit;
    if edits != [] {
      assert edits[0] in edits;
      EditKeeps(w, home, edits[0]);
      EditKeepsRefs(w, home, edits[0]);
      EditsKeepRefs(ApplyEdit(w, home, edits[0]), home, edits[1..]);
    }
  }

  lemma BeginKeepsRefs(w: World, env: Env)
    requires Valid(w, env.home) && RefsAtHome(w, env.home) && NoForeignRefs(env)
    ensures RefsAtHome(Begin(w, env), env.home)
  {
    EditsKeepRefs(w, env.home, env.turn(w.calls).edits);
  }

  lemma CallsKeepRefs(w: World, env: Env, k: Key)
    requires Valid(w, env.home) && RefsAtHome(w, env.home) && NoForeignRefs(env)
    ensures RefsAtHome(GetObj(w, env, k).w, env.home) && RefsAtHome(DeleteObject(w, env, k).w, env.home)
  {
    hide Begin, NoForeignRefs, Valid;
    BeginKeepsRefs(w, env);
  }

  lemma ListKeepsRefs(w: World, env: Env, kind: Kind, tag: string, value: string)
    requires Valid(w, env.home) && RefsAtHome(w, env.home) && NoForeignRefs(env)
    ensures RefsAtHome(ListObjs(w, env, kind, tag, value).w, env.home)
    ensures ListObjs(w, env, kind, tag, value).res != Err(Panicked)
  {
    hide Begin, NoForeignRefs, Valid, Listed;
    BeginKeepsRefs(w, env);
  }

  lemma CallsNeverPanic(w: World, env: Env, k: Key)
    ensures GetObj(w, env, k).res != Err(Panicked) && DeleteObject(w, env, k).res != Err(Panicked)
  {
    hide Begin;
  }

  lemma CleanedInBounds(w: World, env: Env, inst: CR, x: Obj)
    requires Valid(w, env.home) && RefsAtHome(w, env.home) && NoForeignRefs(env)
    requires inst.nn == env.home && inst.nn.name != ""
    ensures var out := Cleaned(w, env, inst, x); RefsAtHome(out.w, env.home) && out.res != Err(Panicked)
  {
    hide GetObj, DeleteObject, RefsAtHome, NoForeignRefs, IsResourceOwned, OwnedBy, Valid, Evolves;
    var k := KeyOf(x);
    CallsKeepRefs(w, env, k);
    CallsNeverPanic(w, env, k);
    GetKeeps(w, env, k);
    var got := GetObj(w, env, k);
    if got.res.Ok? {
      FoundKey(w, env, k);
      RefsOf(got.w, env.home, k);
      TestExact(inst, x, got.res.value);
      CallsKeepRefs(got.w, env, k);
      CallsNeverPanic(got.w, env, k);
    }
  }

  lemma RefsOf(w: World, home: Name, k: Key)
    requires RefsAtHome(w, home) && k in w.objs && KeyOf(w.objs[k]) == k
    ensures w.objs[k].ownerRefs != [] ==> w.objs[k].ns == home.ns
  {
  }

  lemma {:induction false} CleanedAllInBounds(w: World, env: Env, inst: CR, xs: seq<Obj>)
    requires Valid(w, env.home) && RefsAtHome(w, env.home) && NoForeignRefs(env)
    requires inst.nn == env.home && inst.nn.name != ""
    ensures var out := CleanedAll(w, env, inst, xs); RefsAtHome(out.w, env.home) && out.res != Err(Panicked)
    decreases |xs|
  {
    hide Cleaned, Valid, Evolves, RefsAtHome, NoForeignRefs;
    if xs != [] {
      CleanedKeeps(w, env, inst, xs[0]);
      CleanedInBounds(w, env, inst, xs[0]);
      CleanedAllInBounds(Cleaned(w, env, inst, xs[0]).w, env, inst, xs[1..]);
    }
  }

  /** Where only the operator writes owner references outside the CR's namespace, the index into the expected
      ones is in bounds, whatever else users do during the teardown. */
  lemma TeardownInBounds(w: World, env: Env, inst: CR, es: seq<Entry>)
    requires Valid(w, env.home) && RefsAtHome(w, env.home) && NoForeignRefs(env)
    requires inst.nn == env.home && inst.nn.name != ""
    ensures Teardown(w, env, inst, es).res != Err(Panicked)
  {
    hide ListObjs, CleanedAll, Valid, Evolves, TasksListed, PipelinesListed, RefsAtHome, NoForeignRefs;
    var found := ListObjs(w, env, ClusterTask, MANAGED_BY_LABEL, MANAGED_BY_VALUE);
    ListKeeps(w, env, ClusterTask, MANAGED_BY_LABEL, MANAGED_BY_VALUE);
    ListKeepsRefs(w, env, ClusterTask, MANAGED_BY_LABEL, MANAGED_BY_VALUE);
    if found.res.Ok? {
      var xs := TasksListed(es) + found.res.value;
      CleanedAllKeeps(found.w, env, inst, xs);
      CleanedAllInBounds(found.w, env, inst, xs);
      CleanedAllInBounds(CleanedAll(found.w, env, inst, xs).w, env, inst, PipelinesListed(es));
    }
  }

  // ---------- only what the CR owns is deleted ----------

  /** The keys that a teardown may delete at. */
  predicate Looked(es: seq<Entry>, k: Key) {
    Concerned(es, k) || k.kind == ClusterTask
  }

  /** A user's change leaves an object that the CR does not own where there was one that it owns, or none. */
  predicate Slips(inst: CR, es: seq<Entry>, p: Put) {
    Looked(es, p.key) && !OwnedBy(inst, p.after) && (p.before.Some? ==> OwnedBy(inst, p.before.value))
  }

  /** Nobody slipped a stranger in at a key that a teardown may delete at. */
  ghost predicate NothingSlipped(inst: CR, es: seq<Entry>, from: nat, puts: seq<Put>) {
    forall i | from <= i < |puts| :: !Slips(inst, es, puts[i])
  }

  lemma SlippedPart(inst: CR, es: seq<Entry>, from: nat, mid: nat, puts: seq<Put>, all: seq<Put>)
    requires NothingSlipped(inst, es, from, all) && puts <= all && from <= mid
    ensures NothingSlipped(inst, es, mid, puts)
  {
    hide Slips;
  }

  /** What is stored at the key, if anything, is the CR's. */
  ghost predicate NoStranger(w: World, inst: CR, k: Key) {
    k in w.objs ==> OwnedBy(inst, w.objs[k])
  }

  lemma EditSlipsNothing(w: World, home: Name, e: Edit, inst: CR, es: seq<Entry>, k: Key)
    requires Valid(w, home) && Looked(es, k) && NoStranger(w, inst, k)
    requires NothingSlipped(inst, es, |w.puts|, ApplyEdit(w, home, e).puts)
    ensures NoStranger(ApplyEdit(w, home, e), inst, k)
  {
    hide OwnedBy, ApplyEdit, Valid, Fades, Concerned;
    var w' := ApplyEdit(w, home, e);
    if e.PutObj? {
      PutEffect(w, home, e);
      if e.key in w'.objs && !(e.key in w.objs && w'.objs[e.key] == w.objs[e.key]) {
        assert !Slips(inst, es, w'.puts[|w.puts|]);
      }
    } else {
      DeletionFades(w, home, e);
      if k in w'.objs {
        FadesOwned(inst, es, k, w.objs[k], w'.objs[k]);
      }
    }
  }

  lemma {:induction false} EditsSlipNothing(w: World, home: Name, edits: seq<Edit>, inst: CR, es: seq<Entry>, k: Key)
    requires Valid(w, home) && Looked(es, k) && NoStranger(w, inst, k)
    requires NothingSlipped(inst, es, |w.puts|, ApplyEdits(w, home, edits).puts)
    ensures NoStranger(ApplyEdits(w, home, edits), inst, k)
    decreases |edits|
  {
    hide ApplyEdit, Valid, Evolves, NothingSlipped, NoStranger, Looked;
    if edits != [] {
      var w1 := ApplyEdit(w, home, edits[0]);
      var w2 := ApplyEdits(w1, home, edits[1..]);
      EditKeeps(w, home, edits[0]);
      EditsKeep(w1, home, edits[1..]);
      PutsGrow(w, w1);
      PutsGrow(w1, w2);
      SlippedPart(inst, es, |w.puts|, |w.puts|, w1.puts, w2.puts);
      SlippedPart(inst, es, |w.puts|, |w1.puts|, w2.puts, w2.puts);
      EditSlipsNothing(w, home, edits[0], inst, es, k);
      EditsSlipNothing(w1, home, edits[1..], inst, es, k);
    }
  }

  /** The events added to a log only delete what the CR owns. */
  ghost predicate DeletesOwned(audit: seq<Write>, audit': seq<Write>, inst: CR) {
    && |audit| <= |audit'| && audit'[..|audit|] == audit
    && forall i | |audit| <= i < |audit'| :: audit'[i].ObjDeleted? && OwnedBy(inst, audit'[i].victim)
  }

  lemma DeletesOwnedTransitive(a: seq<Write>, b: seq<Write>, c: seq<Write>, inst: CR)
    requires DeletesOwned(a, b, inst) && DeletesOwned(b, c, inst)
    ensures DeletesOwned(a, c, inst)
  {
    hide OwnedBy;
    assert c[..|a|] == c[..|b|][..|a|];
    forall i | |a| <= i < |c|
      ensures c[i].ObjDeleted? && OwnedBy(inst, c[i].victim)
    {
      if i < |b| {
        assert c[i] == c[..|b|][i];
      }
    }
  }

  lemma DeletesNothing(audit: seq<Write>, inst: CR)
    ensures DeletesOwned(audit, audit, inst)
  {
  }

  /** The delete hits what is stored when it is served. */
  lemma DeleteHits(w: World, env: Env, inst: CR, es: seq<Entry>, k: Key)
    requires Valid(w, env.home) && Looked(es, k) && NoStranger(w, inst, k)
    requires NothingSlipped(inst, es, |w.puts|, DeleteObject(w, env, k).w.puts)
    ensures DeletesOwned(w.audit, DeleteObject(w, env, k).w.audit, inst)
  {
    hide Valid, Evolves, OwnedBy, NothingSlipped, Looked, Begin;
    var w1 := Begin(w, env);
    BeginKeeps(w, env);
    BeginObjs(w, env);
    CallPuts(w, env, k, ClusterTask, "", "");
    EditsSlipNothing(w, env.home, env.turn(w.calls).edits, inst, es, k);
    assert NoStranger(w1, inst, k);
  }

  lemma BeginObjs(w: World, env: Env)
    ensures var w1 := ApplyEdits(w, env.home, env.turn(w.calls).edits);
            Begin(w, env).objs == w1.objs && Begin(w, env).puts == w1.puts
  {
  }

  lemma CleanedDeletesOwned(w: World, env: Env, inst: CR, es: seq<Entry>, x: Obj)
    requires Valid(w, env.home) && RefsAtHome(w, env.home) && NoForeignRefs(env)
    requires inst.nn == env.home && inst.nn.name != "" && Looked(es, KeyOf(x))
    requires NothingSlipped(inst, es, |w.puts|, Cleaned(w, env, inst, x).w.puts)
    ensures DeletesOwned(w.audit, Cleaned(w, env, inst, x).w.audit, inst)
  {
    hide GetObj, DeleteObject, RefsAtHome, NoForeignRefs, IsResourceOwned, OwnedBy, Valid, Evolves, DeletesOwned,
         NothingSlipped, Looked;
    var k, out := KeyOf(x), Cleaned(w, env, inst, x);
    var got := GetObj(w, env, k);
    CallsKeepRefs(w, env, k);
    GetKeeps(w, env, k);
    PutsGrow(w, got.w);
    DeletesNothing(w.audit, inst);
    if got.res.Ok? {
      FoundKey(w, env, k);
      RefsOf(got.w, env.home, k);
      TestExact(inst, x, got.res.value);
      OwnedDecoded(inst, got.w.objs[k], got.res.value);
      if OwnedBy(inst, got.res.value) && !got.res.value.terminating {
        SlippedPart(inst, es, |w.puts|, |got.w.puts|, out.w.puts, out.w.puts);
        DeleteHits(got.w, env, inst, es, k);
      }
    }
  }

  lemma {:induction false} CleanedAllDeletesOwned(w: World, env: Env, inst: CR, es: seq<Entry>, xs: seq<Obj>)
    requires Valid(w, env.home) && RefsAtHome(w, env.home) && NoForeignRefs(env)
    requires inst.nn == env.home && inst.nn.name != "" && (forall x <- xs :: Looked(es, KeyOf(x)))
    requires NothingSlipped(inst, es, |w.puts|, CleanedAll(w, env, inst, xs).w.puts)
    ensures DeletesOwned(w.audit, CleanedAll(w, env, inst, xs).w.audit, inst)
    decreases |xs|
  {
    hide Cleaned, Valid, Evolves, RefsAtHome, NoForeignRefs, DeletesOwned, NothingSlipped, Looked;
    var out := CleanedAll(w, env, inst, xs);
    if xs == [] {
      DeletesNothing(w.audit, inst);
    } else {
      var first := Cleaned(w, env, inst, xs[0]);
      CleanedKeeps(w, env, inst, xs[0]);
      CleanedAllKeeps(first.w, env, inst, xs[1..]);
      var rest := CleanedAll(first.w, env, inst, xs[1..]);
      PutsGrow(w, first.w);
      PutsGrow(first.w, rest.w);
      SlippedPart(inst, es, |w.puts|, |w.puts|, first.w.puts, out.w.puts);
      CleanedInBounds(w, env, inst, xs[0]);
      CleanedDeletesOwned(w, env, inst, es, xs[0]);
      if first.res.Ok? {
        SlippedPart(inst, es, |w.puts|, |first.w.puts|, rest.w.puts, out.w.puts);
        CleanedAllDeletesOwned(first.w, env, inst, es, xs[1..]);
        DeletesOwnedTransitive(w.audit, first.w.audit, rest.w.audit, inst);
      }
    }
  }

  lemma {:induction false} ListedSound(w: World, keys: seq<Key>, x: Obj)
    requires x in Listed(w, keys, ClusterTask, MANAGED_BY_LABEL, MANAGED_BY_VALUE)
    ensures exists k :: k in w.objs && w.objs[k] == x && k.kind == ClusterTask && MANAGED_BY_LABEL in x.labels
                        && x.labels[MANAGED_BY_LABEL] == MANAGED_BY_VALUE
  {
    if x in Listed(w, keys[1..], ClusterTask, MANAGED_BY_LABEL, MANAGED_BY_VALUE) {
      ListedSound(w, keys[1..], x);
    } else {
      assert x == w.objs[keys[0]];
    }
  }

  lemma ListedLooked(w: World, env: Env, es: seq<Entry>, x: Obj)
    requires Valid(w, env.home)
    requires var found := ListObjs(w, env, ClusterTask, MANAGED_BY_LABEL, MANAGED_BY_VALUE);
             found.res.Ok? && x in TasksListed(es) + found.res.value + PipelinesListed(es)
    ensures Looked(es, KeyOf(x))
  {
    hide Begin, Listed, TasksListed, PipelinesListed;
    var found := ListObjs(w, env, ClusterTask, MANAGED_BY_LABEL, MANAGED_BY_VALUE);
    ListKeeps(w, env, ClusterTask, MANAGED_BY_LABEL, MANAGED_BY_VALUE);
    if x in found.res.value {
      ListedSound(found.w, found.w.index, x);
    } else {
      assert x in TasksListed(es) + PipelinesListed(es);
    }
  }

  /** Safe deletion: where only the operator writes owner references outside the CR's namespace, and nobody slips
      a stranger in during the teardown, only objects that carry the CR's controller reference or both of its
      owner annotations are deleted. */
  lemma TeardownDeletesOwned(w: World, env: Env, inst: CR, es: seq<Entry>)
    requires Valid(w, env.home) && RefsAtHome(w, env.home) && NoForeignRefs(env)
    requires inst.nn == env.home && inst.nn.name != ""
    requires NothingSlipped(inst, es, |w.puts|, Teardown(w, env, inst, es).w.puts)
    ensures DeletesOwned(w.audit, Teardown(w, env, inst, es).w.audit, inst)
  {
    hide ListObjs, CleanedAll, Valid, Evolves, TasksListed, PipelinesListed, RefsAtHome, NoForeignRefs, DeletesOwned,
         NothingSlipped, Looked;
    var found, down := ListObjs(w, env, ClusterTask, MANAGED_BY_LABEL, MANAGED_BY_VALUE), Teardown(w, env, inst, es);
    ListKeeps(w, env, ClusterTask, MANAGED_BY_LABEL, MANAGED_BY_VALUE);
    ListKeepsRefs(w, env, ClusterTask, MANAGED_BY_LABEL, MANAGED_BY_VALUE);
    PutsGrow(w, found.w);
    DeletesNothing(w.audit, inst);
    if found.res.Ok? {
      var xs, ys := TasksListed(es) + found.res.value, PipelinesListed(es);
      var tasks := CleanedAll(found.w, env, inst, xs);
      CleanedAllKeeps(found.w, env, inst, xs);
      CleanedAllKeeps(tasks.w, env, inst, ys);
      PutsGrow(found.w, tasks.w);
      PutsGrow(tasks.w, CleanedAll(tasks.w, env, inst, ys).w);
      forall x <- xs + ys
        ensures Looked(es, KeyOf(x))
      {
        ListedLooked(w, env, es, x);
      }
      assert forall x <- xs :: x in xs + ys;
      assert forall y <- ys :: y in xs + ys;
      SlippedPart(inst, es, |w.puts|, |found.w.puts|, tasks.w.puts, down.w.puts);
      CleanedAllInBounds(found.w, env, inst, xs);
      CleanedAllDeletesOwned(found.w, env, inst, es, xs);
      if tasks.res.Ok? {
        SlippedPart(inst, es, |w.puts|, |tasks.w.puts|, down.w.puts, down.w.puts);
        CleanedAllDeletesOwned(tasks.w, env, inst, es, ys);
        DeletesOwnedTransitive(w.audit, tasks.w.audit, down.w.audit, inst);
      }
    }
  }

  // ---------- the delete names only a key ----------

  /** A stranger was deleted. */
  ghost predicate DeletedStranger(audit: seq<Write>, audit': seq<Write>, inst: CR) {
    exists i :: |audit| <= i < |audit'| && audit'[i].ObjDeleted? && !OwnedBy(inst, audit'[i].victim)
  }

  /** For every script: the cleanup of an object that it found live and owned deletes or marks a stranger exactly
      if, at the moment the request is served, a live object that the CR does not own is stored at that key, and
      the request is not turned away. The request carries neither uid nor resource version. */
  lemma DeletesStrangerExactly(w: World, env: Env, inst: CR, x: Obj)
    requires Valid(w, env.home) && GetObj(w, env, KeyOf(x)).res.Ok?
    requires var found := GetObj(w, env, KeyOf(x)).res.value;
             IsResourceOwned(inst, x, found) == Ok(true) && !found.terminating
    ensures var got := GetObj(w, env, KeyOf(x));
            var served := Begin(got.w, env);
            DeletedStranger(w.audit, Cleaned(w, env, inst, x).w.audit, inst)
            <==> && !FaultOf(got.w, env).Rejected? && KeyOf(x) in served.objs
                 && !OwnedBy(inst, served.objs[KeyOf(x)]) && !served.objs[KeyOf(x)].terminating
  {
    hide Begin, GetObj, Valid, Evolves, OwnedBy, IsResourceOwned, FaultOf;
    var k, out := KeyOf(x), Cleaned(w, env, inst, x);
    var got := GetObj(w, env, k);
    GetKeeps(w, env, k);
    FoundKey(w, env, k);
    BeginKeeps(got.w, env);
    var served := Begin(got.w, env);
    LiveUnlessHeld(served, env.home, k);
    assert out.w == DeleteObject(got.w, env, k).w;
    if !FaultOf(got.w, env).Rejected? && k in served.objs && Expunge(served, k) != served {
      assert out.w.audit == w.audit + [ObjDeleted(k, served.objs[k])];
      assert out.w.audit[|w.audit|] == ObjDeleted(k, served.objs[k]);
    } else {
      assert out.w.audit == w.audit;
    }
  }

  /** A delete request changes nothing exactly if the object is being deleted already. */
  lemma LiveUnlessHeld(w: World, home: Name, k: Key)
    requires Valid(w, home)
    ensures k in w.objs ==> (Expunge(w, k) == w <==> w.objs[k].terminating)
  {
  }

  /** It does happen: an object that somebody else puts in place between the ownership test and the request. */
  lemma DeleteCanHitStranger(w: World, env: Env, inst: CR, x: Obj, payload: Payload)
    requires Valid(w, env.home) && inst.nn.name != "" && KeyOf(x) in w.objs
    requires var o := w.objs[KeyOf(x)];
             IsResourceOwned(inst, x, o.(typed := env.turn(w.calls).typed)) == Ok(true) && o.finalizers == []
    requires env.turn(w.calls).edits == [] && env.turn(w.calls).fault == Served
    requires env.turn(w.calls + 1).edits == [DeleteObj(KeyOf(x)), PutObj(KeyOf(x), map[], map[], [], [], payload)]
    requires env.turn(w.calls + 1).fault == Served
    ensures var out := Cleaned(w, env, inst, x);
            && |out.w.audit| == |w.audit| + 1
            && var e := out.w.audit[|w.audit|];
               e.ObjDeleted? && e.key == KeyOf(x) && !OwnedBy(inst, e.victim) && e.victim.uid != w.objs[KeyOf(x)].uid
  {
    hide IsResourceOwned;
    var k := KeyOf(x);
    var w1 := GetObj(w, env, k).w;
    assert w1 == w.(calls := w.calls + 1);
    assert !w.objs[k].terminating;
    var gone := ApplyEdit(w1, env.home, DeleteObj(k));
    var put := ApplyEdit(gone, env.home, PutObj(k, map[], map[], [], [], payload));
    TwoEdits(w1, env.home, DeleteObj(k), PutObj(k, map[], map[], [], [], payload));
    assert k !in gone.objs && k in put.objs && put.objs[k].annotations == map[] && put.objs[k].ownerRefs == [];
    assert GROUP_KIND != "" by { assert |GROUP_KIND| > 0; }
  }

  lemma TwoEdits(w: World, home: Name, a: Edit, b: Edit)
    ensures ApplyEdits(w, home, [a, b]) == ApplyEdit(ApplyEdit(w, home, a), home, b)
  {
    assert [a, b][1..] == [b] && [b][1..] == [];
    var w1 := ApplyEdit(w, home, a);
    assert ApplyEdits(w1, home, [b]) == ApplyEdits(ApplyEdit(w1, home, b), home, []);
  }
}

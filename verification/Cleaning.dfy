/** Tearing an operand down: what is left when the finalizers go, and why it comes to an end. */
module Cleaning {
  import opened Kube
  import opened ApiServer
  import opened Labels
  import opened Ownership
  import opened Resource
  import opened Operands
  import opened StatusReport
  import opened Controller
  import opened Tracking

  // ---------- everything that cleaning up is about ----------

  /** The keys the operands look up when they clean up. */
  predicate Concerned(es: seq<Entry>, k: Key) {
    exists x :: x in TasksListed(es) + PipelinesListed(es) && KeyOf(x) == k
  }

  /** A ClusterTask left by an earlier release. */
  predicate Deprecated(o: Obj) {
    o.kind == ClusterTask && MANAGED_BY_LABEL in o.labels && o.labels[MANAGED_BY_LABEL] == MANAGED_BY_VALUE
  }

  /** An object of the CR that a cleanup looks for. */
  predicate Owns(inst: CR, es: seq<Entry>, k: Key, o: Obj) {
    (Concerned(es, k) || Deprecated(o)) && OwnedBy(inst, o)
  }

  /** The CR owns nothing that cleaning up is about. */
  ghost predicate Clean(w: World, inst: CR, es: seq<Entry>) {
    forall k <- w.objs :: !Owns(inst, es, k, w.objs[k])
  }

  /** Whatever the CR still owns of it is being deleted. */
  ghost predicate Condemned(w: World, inst: CR, es: seq<Entry>) {
    forall k <- w.objs :: Owns(inst, es, k, w.objs[k]) ==> w.objs[k].terminating
  }

  // ---------- nothing is re-created ----------

  /** A user's change gives the CR an object, among those that cleaning up is about, that was not there before
      or that the CR did not own. */
  predicate Takes(inst: CR, es: seq<Entry>, p: Put) {
    Owns(inst, es, p.key, p.after) && !(p.before.Some? && Owns(inst, es, p.key, p.before.value))
  }

  /** Nothing was re-created: no change since the first `from` ones gave the CR an object. Users may create and
      change everything else, change what the CR owns, delete, and do to the CR what they like. */
  ghost predicate NothingTaken(inst: CR, es: seq<Entry>, from: nat, puts: seq<Put>) {
    forall i | from <= i < |puts| :: !Takes(inst, es, puts[i])
  }

  /** The CR has gained no object, and nothing is rescued from being deleted. */
  ghost predicate Shrinks(w: World, w': World, inst: CR, es: seq<Entry>) {
    forall k <- w'.objs :: Owns(inst, es, k, w'.objs[k]) ==>
      k in w.objs && Owns(inst, es, k, w.objs[k]) && (w.objs[k].terminating ==> w'.objs[k].terminating)
  }

  lemma ShrinksTransitive(w: World, w1: World, w2: World, inst: CR, es: seq<Entry>)
    requires Shrinks(w, w1, inst, es) && Shrinks(w1, w2, inst, es)
    ensures Shrinks(w, w2, inst, es)
  {
    hide Owns;
  }

  lemma ShrinksNothing(w: World, w': World, inst: CR, es: seq<Entry>)
    requires w'.objs == w.objs
    ensures Shrinks(w, w', inst, es)
  {
    hide Owns;
  }

  /** What held of all changes holds of a part of them. */
  lemma TakenPart(inst: CR, es: seq<Entry>, from: nat, mid: nat, puts: seq<Put>, all: seq<Put>)
    requires NothingTaken(inst, es, from, all) && puts <= all && from <= mid
    ensures NothingTaken(inst, es, mid, puts)
  {
    hide Takes;
  }

  /** Deleting, or marking for deletion. */
  predicate Fades(o: Obj, o': Obj) {
    o' == o.(terminating := o'.terminating, rv := o'.rv) && (o.terminating ==> o'.terminating)
  }

  lemma FadesOwned(inst: CR, es: seq<Entry>, k: Key, o: Obj, o': Obj)
    requires Fades(o, o')
    ensures OwnedBy(inst, o') == OwnedBy(inst, o) && Owns(inst, es, k, o') == Owns(inst, es, k, o)
  {
    hide Concerned;
  }

  lemma FadingShrinks(w: World, w': World, inst: CR, es: seq<Entry>)
    requires forall k <- w'.objs :: k in w.objs && Fades(w.objs[k], w'.objs[k])
    ensures Shrinks(w, w', inst, es)
  {
    hide Owns, Fades;
    forall k <- w'.objs
      ensures Owns(inst, es, k, w'.objs[k]) == Owns(inst, es, k, w.objs[k])
      ensures w.objs[k].terminating ==> w'.objs[k].terminating
    {
      FadesOwned(inst, es, k, w.objs[k], w'.objs[k]);
      FadesMark(w.objs[k], w'.objs[k]);
    }
  }

  lemma FadesMark(o: Obj, o': Obj)
    requires Fades(o, o')
    ensures o.terminating ==> o'.terminating
  {
  }

  lemma DeletionFades(w: World, home: Name, e: Edit)
    requires !e.PutObj?
    ensures var w' := ApplyEdit(w, home, e); forall k <- w'.objs :: k in w.objs && Fades(w.objs[k], w'.objs[k])
  {
  }

  /** How one change of a user looks in the list of changes. */
  lemma PutEffect(w: World, home: Name, e: Edit)
    requires Valid(w, home) && e.PutObj?
    ensures var w' := ApplyEdit(w, home, e);
            && (forall k <- w'.objs :: k != e.key ==> k in w.objs && w'.objs[k] == w.objs[k])
            && (e.key in w'.objs && e.key in w.objs && w.objs[e.key].terminating ==> w'.objs[e.key].terminating)
            && (e.key in w'.objs && !(e.key in w.objs && w'.objs[e.key] == w.objs[e.key]) ==>
                  w'.puts == w.puts + [Put(e.key, if e.key in w.objs then Some(w.objs[e.key]) else None,
                                           w'.objs[e.key])])
  {
  }

  lemma EditShrinks(w: World, home: Name, e: Edit, inst: CR, es: seq<Entry>)
    requires Valid(w, home) && NothingTaken(inst, es, |w.puts|, ApplyEdit(w, home, e).puts)
    ensures Shrinks(w, ApplyEdit(w, home, e), inst, es)
  {
    hide Owns, ApplyEdit, Valid, Fades;
    var w' := ApplyEdit(w, home, e);
    if e.PutObj? {
      PutEffect(w, home, e);
      if e.key in w'.objs && !(e.key in w.objs && w'.objs[e.key] == w.objs[e.key]) {
        assert !Takes(inst, es, w'.puts[|w.puts|]);
      }
    } else {
      DeletionFades(w, home, e);
      FadingShrinks(w, w', inst, es);
    }
  }

  lemma {:induction false} EditsShrink(w: World, home: Name, edits: seq<Edit>, inst: CR, es: seq<Entry>)
    requires Valid(w, home) && NothingTaken(inst, es, |w.puts|, ApplyEdits(w, home, edits).puts)
    ensures Shrinks(w, ApplyEdits(w, home, edits), inst, es)
    decreases |edits|
  {
    hide Owns, ApplyEdit, Valid, Evolves, NothingTaken, Shrinks;
    if edits == [] {
      ShrinksNothing(w, w, inst, es);
    } else {
      var w1 := ApplyEdit(w, home, edits[0]);
      var w2 := ApplyEdits(w1, home, edits[1..]);
      EditKeeps(w, home, edits[0]);
      EditsKeep(w1, home, edits[1..]);
      PutsGrow(w, w1);
      PutsGrow(w1, w2);
      TakenPart(inst, es, |w.puts|, |w.puts|, w1.puts, w2.puts);
      TakenPart(inst, es, |w.puts|, |w1.puts|, w2.puts, w2.puts);
      EditShrinks(w, home, edits[0], inst, es);
      EditsShrink(w1, home, edits[1..], inst, es);
      ShrinksTransitive(w, w1, w2, inst, es);
    }
  }

  lemma PutsGrow(w: World, w': World)
    requires Evolves(w, w')
    ensures w.puts <= w'.puts
  {
  }

  lemma BeginShrinks(w: World, env: Env, inst: CR, es: seq<Entry>)
    requires Valid(w, env.home) && NothingTaken(inst, es, |w.puts|, Begin(w, env).puts)
    ensures Shrinks(w, Begin(w, env), inst, es)
  {
    hide Valid, NothingTaken, Owns;
    EditsShrink(w, env.home, env.turn(w.calls).edits, inst, es);
    ShrinksNothing(ApplyEdits(w, env.home, env.turn(w.calls).edits), Begin(w, env), inst, es);
  }

  /** Nobody but users appears in the list of changes. */
  lemma CallPuts(w: World, env: Env, k: Key, kind: Kind, tag: string, value: string)
    ensures GetObj(w, env, k).w.puts == DeleteObject(w, env, k).w.puts == Begin(w, env).puts
    ensures ListObjs(w, env, kind, tag, value).w.puts == Begin(w, env).puts
  {
    hide Begin;
  }

  lemma ReadShrinks(w: World, env: Env, k: Key, inst: CR, es: seq<Entry>)
    requires Valid(w, env.home) && NothingTaken(inst, es, |w.puts|, GetObj(w, env, k).w.puts)
    ensures Shrinks(w, GetObj(w, env, k).w, inst, es)
  {
    hide Begin, Valid, NothingTaken, Shrinks;
    CallPuts(w, env, k, ClusterTask, "", "");
    BeginShrinks(w, env, inst, es);
  }

  lemma DeleteShrinks(w: World, env: Env, k: Key, inst: CR, es: seq<Entry>)
    requires Valid(w, env.home) && NothingTaken(inst, es, |w.puts|, DeleteObject(w, env, k).w.puts)
    ensures Shrinks(w, DeleteObject(w, env, k).w, inst, es)
  {
    hide Begin, Valid, NothingTaken, Shrinks, Fades, Owns;
    CallPuts(w, env, k, ClusterTask, "", "");
    BeginShrinks(w, env, inst, es);
    var w1, w2 := Begin(w, env), DeleteObject(w, env, k).w;
    DeleteFades(w, env, k);
    FadingShrinks(w1, w2, inst, es);
    ShrinksTransitive(w, w1, w2, inst, es);
  }

  lemma DeleteFades(w: World, env: Env, k: Key)
    ensures var w1, w2 := Begin(w, env), DeleteObject(w, env, k).w;
            forall x <- w2.objs :: x in w1.objs && Fades(w1.objs[x], w2.objs[x])
  {
    hide Begin;
  }

  /** The CR owns nothing that is stored at a key. */
  ghost predicate Unowned(w: World, inst: CR, es: seq<Entry>, k: Key) {
    k in w.objs ==> !Owns(inst, es, k, w.objs[k])
  }

  /** What the CR owns at a key is being deleted. */
  ghost predicate Going(w: World, inst: CR, es: seq<Entry>, k: Key) {
    k in w.objs && Owns(inst, es, k, w.objs[k]) ==> w.objs[k].terminating
  }

  lemma UnownedStays(w: World, w': World, inst: CR, es: seq<Entry>, k: Key)
    requires Shrinks(w, w', inst, es)
    ensures Unowned(w, inst, es, k) ==> Unowned(w', inst, es, k)
    ensures Going(w, inst, es, k) ==> Going(w', inst, es, k)
  {
    hide Owns;
  }

  // ---------- one object ----------

  /** Whoever passes the ownership test negatively does not own the object. */
  lemma NotOwnedMeansUnowned(inst: CR, x: Obj, found: Obj)
    requires found.ns == x.ns && IsResourceOwned(inst, x, found) == Ok(false)
    ensures !OwnedBy(inst, found)
  {
  }

  /** Cleaning one object up without an error leaves nothing live of it that the CR owns, and says "deleted"
      only if the CR owns nothing there any more. */
  lemma CleanedLeavesNothing(w: World, env: Env, inst: CR, es: seq<Entry>, x: Obj)
    requires Valid(w, env.home) && NothingTaken(inst, es, |w.puts|, Cleaned(w, env, inst, x).w.puts)
    ensures var out := Cleaned(w, env, inst, x);
            && Shrinks(w, out.w, inst, es)
            && (out.res.Ok? ==> Going(out.w, inst, es, KeyOf(x)))
            && (out.res.Ok? && out.res.value.deleted ==> Unowned(out.w, inst, es, KeyOf(x)))
  {
    hide Valid, Evolves, OwnedBy, IsResourceOwned, Shrinks, GetObj, DeleteObject, NothingTaken, Concerned, Deprecated;
    var k, out := KeyOf(x), Cleaned(w, env, inst, x);
    var got := GetObj(w, env, k);
    GetKeeps(w, env, k);
    PutsGrow(w, got.w);
    if got.res.Err? {
      ReadShrinks(w, env, k, inst, es);
      ReadMisses(w, env, k);
    } else {
      FoundKey(w, env, k);
      OwnedDecoded(inst, got.w.objs[k], got.res.value);
      if IsResourceOwned(inst, x, got.res.value) == Ok(false) {
        NotOwnedMeansUnowned(inst, x, got.res.value);
      }
      DeleteKeeps(got.w, env, k);
      PutsGrow(got.w, DeleteObject(got.w, env, k).w);
      TakenPart(inst, es, |w.puts|, |w.puts|, got.w.puts, out.w.puts);
      TakenPart(inst, es, |w.puts|, |got.w.puts|, out.w.puts, out.w.puts);
      ReadShrinks(w, env, k, inst, es);
      if IsResourceOwned(inst, x, got.res.value) == Ok(true) && !got.res.value.terminating {
        DeleteShrinks(got.w, env, k, inst, es);
        ShrinksTransitive(w, got.w, out.w, inst, es);
        DeleteLeavesNothing(got.w, env, inst, es, k);
      }
    }
  }

  lemma ReadMisses(w: World, env: Env, k: Key)
    ensures GetObj(w, env, k).res == Err(NotFound) ==> k !in GetObj(w, env, k).w.objs
  {
    hide Begin;
  }

  lemma OwnedDecoded(inst: CR, o: Obj, found: Obj)
    requires found == o.(typed := found.typed)
    ensures OwnedBy(inst, found) == OwnedBy(inst, o)
  {
  }

  lemma FoundKey(w: World, env: Env, k: Key)
    requires Valid(w, env.home) && GetObj(w, env, k).res.Ok?
    ensures var r := GetObj(w, env, k);
            && k in r.w.objs && KeyOf(r.w.objs[k]) == k && KeyOf(r.res.value) == k
            && r.res.value == r.w.objs[k].(typed := r.res.value.typed)
  {
    hide Begin;
    GetKeeps(w, env, k);
  }

  lemma CleanedCalls(w: World, env: Env, inst: CR, x: Obj)
    requires Valid(w, env.home)
    ensures var out, got := Cleaned(w, env, inst, x), GetObj(w, env, KeyOf(x));
            && got.w.calls == w.calls + 1
            && (if got.res.Ok? && IsResourceOwned(inst, x, got.res.value) == Ok(true) && !got.res.value.terminating
                then out.w.calls == w.calls + 2 else out.w == got.w)
  {
    hide Begin, Valid, Evolves, IsResourceOwned;
    GetKeeps(w, env, KeyOf(x));
    BeginKeeps(w, env);
    BeginKeeps(GetObj(w, env, KeyOf(x)).w, env);
  }

  lemma DeleteLeavesNothing(w: World, env: Env, inst: CR, es: seq<Entry>, k: Key)
    requires Valid(w, env.home)
    ensures var gone := DeleteObject(w, env, k);
            && (gone.res.Ok? ==> Going(gone.w, inst, es, k))
            && (gone.res == Err(NotFound) ==> k !in gone.w.objs)
  {
    hide Begin, Owns, Valid;
  }

  // ---------- lists of objects ----------

  lemma {:induction false} CleanedAllLeavesNothing(w: World, env: Env, inst: CR, es: seq<Entry>, xs: seq<Obj>)
    requires Valid(w, env.home) && NothingTaken(inst, es, |w.puts|, CleanedAll(w, env, inst, xs).w.puts)
    ensures var out := CleanedAll(w, env, inst, xs);
            && Shrinks(w, out.w, inst, es)
            && (out.res.Ok? ==> forall x <- xs :: Going(out.w, inst, es, KeyOf(x)))
            && (out.res.Ok? && Pending(out.res.value) == 0 ==> forall x <- xs :: Unowned(out.w, inst, es, KeyOf(x)))
    decreases |xs|
  {
    hide Cleaned, Valid, Evolves, Shrinks, Unowned, Going, NothingTaken;
    var out := CleanedAll(w, env, inst, xs);
    if xs == [] {
      ShrinksNothing(w, w, inst, es);
    } else {
      var first := Cleaned(w, env, inst, xs[0]);
      CleanedKeeps(w, env, inst, xs[0]);
      CleanedAllKeeps(first.w, env, inst, xs[1..]);
      var rest := CleanedAll(first.w, env, inst, xs[1..]);
      PutsGrow(w, first.w);
      PutsGrow(first.w, rest.w);
      TakenPart(inst, es, |w.puts|, |w.puts|, first.w.puts, out.w.puts);
      CleanedLeavesNothing(w, env, inst, es, xs[0]);
      if first.res.Ok? {
        TakenPart(inst, es, |w.puts|, |first.w.puts|, rest.w.puts, out.w.puts);
        CleanedAllLeavesNothing(first.w, env, inst, es, xs[1..]);
        ShrinksTransitive(w, first.w, rest.w, inst, es);
        UnownedStays(first.w, rest.w, inst, es, KeyOf(xs[0]));
        if rest.res.Ok? {
          assert out.res.value[0] == first.res.value && out.res.value[1..] == rest.res.value;
        }
      }
    }
  }

  lemma {:induction false} ListedComplete(w: World, keys: seq<Key>, k: Key)
    requires k in keys && k in w.objs && k.kind == ClusterTask && Deprecated(w.objs[k])
    ensures w.objs[k] in Listed(w, keys, ClusterTask, MANAGED_BY_LABEL, MANAGED_BY_VALUE)
  {
    hide Deprecated;
    if keys[0] == k {
      assert Deprecated(w.objs[k]);
      DeprecatedLabels(w.objs[k]);
    } else {
      ListedComplete(w, keys[1..], k);
    }
  }

  lemma DeprecatedLabels(o: Obj)
    requires Deprecated(o)
    ensures MANAGED_BY_LABEL in o.labels && o.labels[MANAGED_BY_LABEL] == MANAGED_BY_VALUE
  {
  }

  /** What the CR owns after the listing, and is not in the operand lists, was listed. */
  lemma OwnedIsListed(w: World, env: Env, inst: CR, es: seq<Entry>, w': World, k: Key)
    requires Valid(w, env.home)
    requires var found := ListObjs(w, env, ClusterTask, MANAGED_BY_LABEL, MANAGED_BY_VALUE);
             found.res.Ok? && Shrinks(found.w, w', inst, es)
    requires k in w'.objs && Owns(inst, es, k, w'.objs[k])
    ensures var listed := ListObjs(w, env, ClusterTask, MANAGED_BY_LABEL, MANAGED_BY_VALUE).res.value;
            exists x <- TasksListed(es) + listed + PipelinesListed(es) :: KeyOf(x) == k
  {
    hide Begin, Listed, TasksListed, PipelinesListed, OwnedBy;
    ListKeeps(w, env, ClusterTask, MANAGED_BY_LABEL, MANAGED_BY_VALUE);
    var found := ListObjs(w, env, ClusterTask, MANAGED_BY_LABEL, MANAGED_BY_VALUE);
    var all := TasksListed(es) + found.res.value + PipelinesListed(es);
    if Concerned(es, k) {
      var x :| x in TasksListed(es) + PipelinesListed(es) && KeyOf(x) == k;
      assert x in all;
    } else {
      ListedComplete(found.w, found.w.index, k);
      assert found.w.objs[k] in all && KeyOf(found.w.objs[k]) == k;
    }
  }

  /** Tearing down without an error leaves nothing live, and if nothing is pending, nothing at all, of what
      the CR owned at the keys of the operand lists or among the deprecated ClusterTasks. */
  lemma TeardownLeavesNothing(w: World, env: Env, inst: CR, es: seq<Entry>)
    requires Valid(w, env.home) && NothingTaken(inst, es, |w.puts|, Teardown(w, env, inst, es).w.puts)
    ensures var down := Teardown(w, env, inst, es);
            && Shrinks(w, down.w, inst, es)
            && (down.res.Ok? ==> Condemned(down.w, inst, es))
            && (down.res == Ok(0) ==> Clean(down.w, inst, es))
  {
    hide ListObjs, CleanedAll, Valid, Evolves, TasksListed, PipelinesListed, Shrinks, Unowned, Going, NothingTaken,
         Clean, Condemned;
    var found := ListObjs(w, env, ClusterTask, MANAGED_BY_LABEL, MANAGED_BY_VALUE);
    var down := Teardown(w, env, inst, es);
    ListKeeps(w, env, ClusterTask, MANAGED_BY_LABEL, MANAGED_BY_VALUE);
    PutsGrow(w, found.w);
    if found.res.Err? {
      ListShrinks(w, env, ClusterTask, MANAGED_BY_LABEL, MANAGED_BY_VALUE, inst, es);
    } else {
      var xs, ys := TasksListed(es) + found.res.value, PipelinesListed(es);
      var tasks := CleanedAll(found.w, env, inst, xs);
      var pipelines := CleanedAll(tasks.w, env, inst, ys);
      CleanedAllKeeps(found.w, env, inst, xs);
      CleanedAllKeeps(tasks.w, env, inst, ys);
      PutsGrow(found.w, tasks.w);
      PutsGrow(tasks.w, pipelines.w);
      TakenPart(inst, es, |w.puts|, |w.puts|, found.w.puts, down.w.puts);
      TakenPart(inst, es, |w.puts|, |found.w.puts|, tasks.w.puts, down.w.puts);
      ListShrinks(w, env, ClusterTask, MANAGED_BY_LABEL, MANAGED_BY_VALUE, inst, es);
      CleanedAllLeavesNothing(found.w, env, inst, es, xs);
      ShrinksTransitive(w, found.w, tasks.w, inst, es);
      if tasks.res.Ok? {
        TakenPart(inst, es, |w.puts|, |tasks.w.puts|, pipelines.w.puts, down.w.puts);
        CleanedAllLeavesNothing(tasks.w, env, inst, es, ys);
        ShrinksTransitive(found.w, tasks.w, pipelines.w, inst, es);
        ShrinksTransitive(w, found.w, pipelines.w, inst, es);
        forall x <- xs
          ensures Going(tasks.w, inst, es, KeyOf(x)) ==> Going(pipelines.w, inst, es, KeyOf(x))
          ensures Unowned(tasks.w, inst, es, KeyOf(x)) ==> Unowned(pipelines.w, inst, es, KeyOf(x))
        {
          UnownedStays(tasks.w, pipelines.w, inst, es, KeyOf(x));
        }
        TornDown(w, env, inst, es, pipelines.w);
      }
    }
  }

  lemma TornDown(w: World, env: Env, inst: CR, es: seq<Entry>, w': World)
    requires Valid(w, env.home)
    requires ListObjs(w, env, ClusterTask, MANAGED_BY_LABEL, MANAGED_BY_VALUE).res.Ok?
    requires Shrinks(ListObjs(w, env, ClusterTask, MANAGED_BY_LABEL, MANAGED_BY_VALUE).w, w', inst, es)
    ensures var listed := ListObjs(w, env, ClusterTask, MANAGED_BY_LABEL, MANAGED_BY_VALUE).res.value;
            && ((forall x <- TasksListed(es) + listed + PipelinesListed(es) :: Going(w', inst, es, KeyOf(x)))
                ==> Condemned(w', inst, es))
            && ((forall x <- TasksListed(es) + listed + PipelinesListed(es) :: Unowned(w', inst, es, KeyOf(x)))
                ==> Clean(w', inst, es))
  {
    hide ListObjs, Valid, TasksListed, PipelinesListed, Shrinks, Owns;
    var listed := ListObjs(w, env, ClusterTask, MANAGED_BY_LABEL, MANAGED_BY_VALUE).res.value;
    var all := TasksListed(es) + listed + PipelinesListed(es);
    forall k <- w'.objs | Owns(inst, es, k, w'.objs[k])
      ensures exists x <- all :: KeyOf(x) == k
    {
      OwnedIsListed(w, env, inst, es, w', k);
    }
  }

  lemma ListShrinks(w: World, env: Env, kind: Kind, tag: string, value: string, inst: CR, es: seq<Entry>)
    requires Valid(w, env.home) && NothingTaken(inst, es, |w.puts|, ListObjs(w, env, kind, tag, value).w.puts)
    ensures Shrinks(w, ListObjs(w, env, kind, tag, value).w, inst, es)
  {
    hide Begin, Valid, NothingTaken, Shrinks, Listed;
    CallPuts(w, env, Key(kind, "", ""), kind, tag, value);
    BeginShrinks(w, env, inst, es);
  }

  // ---------- a cleanup pass ----------

  /** The CR is still there and still held by a finalizer of the operator. */
  predicate StillHeld(w: World, inst: CR) {
    w.cr.Some? && w.cr.value.uid == inst.uid && HasOurs(w.cr.value)
  }

  lemma EvolvesHeld(w: World, w': World, home: Name, inst: CR)
    requires Valid(w, home) && Evolves(w, w') && StillHeld(w, inst)
    ensures StillHeld(w', inst)
  {
    hide ObjsEvolve, CrTrace, Stake;
  }

  lemma StatusWriteHeld(w: World, env: Env, inst: CR, s: Status)
    requires Valid(w, env.home) && Copy(w, env.home, inst) && StillHeld(w, inst)
    ensures StillHeld(StatusWrite(w, env, inst.(status := s)).w, inst)
  {
    hide StatusWrite, Valid, Begin, Evolves;
    BeginKeeps(w, env);
    EvolvesHeld(w, Begin(w, env), env.home, inst);
    StatusWriteEffect(w, env, inst.(status := s));
  }

  /** Once the CR is gone, or nothing of the operator holds it, that is for good. */
  lemma LostForGood(w: World, w': World, home: Name, inst: CR)
    requires Valid(w, home) && inst.uid < w.uid && Evolves(w, w') && !StillHeld(w, inst)
    ensures !StillHeld(w', inst)
  {
    hide ObjsEvolve, CrTrace, Stake;
  }

  lemma StatusWriteLost(w: World, env: Env, inst: CR, s: Status)
    requires Valid(w, env.home) && Copy(w, env.home, inst) && !StillHeld(w, inst)
    ensures !StillHeld(StatusWrite(w, env, inst.(status := s)).w, inst)
  {
    hide StatusWrite, Valid, Begin, Evolves;
    BeginKeeps(w, env);
    LostForGood(w, Begin(w, env), env.home, inst);
    StatusWriteEffect(w, env, inst.(status := s));
  }

  lemma CrWriteShrinks(w: World, env: Env, write: CR, inst: CR, es: seq<Entry>)
    requires Valid(w, env.home)
    ensures NothingTaken(inst, es, |w.puts|, StatusWrite(w, env, write).w.puts) ==>
              Shrinks(w, StatusWrite(w, env, write).w, inst, es)
    ensures NothingTaken(inst, es, |w.puts|, MetaWrite(w, env, write).w.puts) ==>
              Shrinks(w, MetaWrite(w, env, write).w, inst, es)
    ensures w.puts <= StatusWrite(w, env, write).w.puts && w.puts <= MetaWrite(w, env, write).w.puts
  {
    hide Begin, Valid, Evolves, NothingTaken, Shrinks;
    var w1, a, b := Begin(w, env), StatusWrite(w, env, write).w, MetaWrite(w, env, write).w;
    BeginKeeps(w, env);
    PutsGrow(w, w1);
    assert a.puts == b.puts == w1.puts && a.objs == b.objs == w1.objs;
    if NothingTaken(inst, es, |w.puts|, w1.puts) {
      BeginShrinks(w, env, inst, es);
      ShrinksNothing(w1, a, inst, es);
      ShrinksNothing(w1, b, inst, es);
      ShrinksTransitive(w, w1, a, inst, es);
      ShrinksTransitive(w, w1, b, inst, es);
    }
  }

  lemma SameOwns(a: CR, b: CR, es: seq<Entry>, k: Key, o: Obj)
    requires a.nn == b.nn && a.uid == b.uid
    ensures Owns(a, es, k, o) == Owns(b, es, k, o)
  {
    SameOwner(a, b, o);
    hide OwnedBy, Concerned, Deprecated;
  }

  /** Only the name and the uid of the CR matter. */
  lemma SameClean(w: World, w': World, a: CR, b: CR, es: seq<Entry>, from: nat, puts: seq<Put>)
    requires a.nn == b.nn && a.uid == b.uid
    ensures Clean(w, a, es) == Clean(w, b, es) && Condemned(w, a, es) == Condemned(w, b, es)
    ensures Shrinks(w, w', a, es) == Shrinks(w, w', b, es)
    ensures NothingTaken(a, es, from, puts) == NothingTaken(b, es, from, puts)
  {
    hide Owns;
    forall k: Key, o: Obj
      ensures Owns(a, es, k, o) == Owns(b, es, k, o)
    {
      SameOwns(a, b, es, k, o);
    }
  }

  lemma CleanStays(w: World, w': World, inst: CR, es: seq<Entry>)
    requires Shrinks(w, w', inst, es)
    ensures Clean(w, inst, es) ==> Clean(w', inst, es)
    ensures Condemned(w, inst, es) ==> Condemned(w', inst, es)
  {
    hide Owns;
  }

  /** Taking the finalizers off, and the last status write after it. */
  function Release(w: World, env: Env, inst: CR): CrOut {
    var freed := MetaWrite(w, env, Released(inst));
    if freed.err.Some? then freed else MarkDeleted(freed.w, env, freed.inst)
  }

  lemma ReleaseShrinks(w: World, env: Env, inst: CR, es: seq<Entry>)
    requires Valid(w, env.home) && Copy(w, env.home, inst)
    requires NothingTaken(inst, es, |w.puts|, Release(w, env, inst).w.puts)
    ensures Shrinks(w, Release(w, env, inst).w, inst, es)
  {
    hide MetaWrite, StatusWrite, Shrinks, Valid, Copy, Kept, NothingTaken, Without;
    var fs := Released(inst).finalizers;
    assert Released(inst) == inst.(finalizers := fs);
    MetaWriteKeeps(w, env, inst, fs);
    var freed := MetaWrite(w, env, Released(inst));
    KeptValid(w, freed.w, env.home);
    var last := freed.inst.(status := DeletedStatus(freed.inst.status, freed.inst.gen));
    CrWriteShrinks(w, env, Released(inst), inst, es);
    CrWriteShrinks(freed.w, env, last, inst, es);
    if freed.err.None? {
      var out := Release(w, env, inst);
      TakenPart(inst, es, |w.puts|, |w.puts|, freed.w.puts, out.w.puts);
      TakenPart(inst, es, |w.puts|, |freed.w.puts|, out.w.puts, out.w.puts);
      ShrinksTransitive(w, freed.w, out.w, inst, es);
    }
  }

  lemma ReleasePuts(w: World, env: Env, inst: CR)
    requires Valid(w, env.home) && Copy(w, env.home, inst)
    ensures w.puts <= Release(w, env, inst).w.puts
  {
    hide MetaWrite, StatusWrite, Valid, Copy, Kept, Without, Shrinks, NothingTaken;
    var fs := Released(inst).finalizers;
    assert Released(inst) == inst.(finalizers := fs);
    MetaWriteKeeps(w, env, inst, fs);
    var freed := MetaWrite(w, env, Released(inst));
    KeptValid(w, freed.w, env.home);
    CrWriteShrinks(w, env, Released(inst), inst, []);
    CrWriteShrinks(freed.w, env, freed.inst.(status := DeletedStatus(freed.inst.status, freed.inst.gen)), inst, []);
  }

  /** A release that makes no error lets go of the CR, under any faults and edits. */
  lemma ReleaseLetsGo(w: World, env: Env, inst: CR)
    requires Valid(w, env.home) && Copy(w, env.home, inst) && Release(w, env, inst).err.None?
    ensures !StillHeld(Release(w, env, inst).w, inst)
  {
    hide MetaWrite, StatusWrite, Valid, Begin, CrReplaced;
    CopyAlso(w, env.home, inst);
    MetaWriteEffect(w, env, Released(inst));
    var freed := MetaWrite(w, env, Released(inst));
    assert !HasOurs(freed.inst);
    assert !StillHeld(freed.w, inst);
    StatusWriteLost(freed.w, env, freed.inst, DeletedStatus(freed.inst.status, freed.inst.gen));
  }

  lemma CopyAlso(w: World, home: Name, inst: CR)
    requires Copy(w, home, inst)
    ensures Copy(w, home, Released(inst)) && SameMeta(Released(inst), inst)
  {
    hide Without;
  }

  /** Tearing down and, if nothing is pending, taking the finalizers off. */
  function Removal(w: World, env: Env, inst: CR, es: seq<Entry>): CrOut {
    var down := Teardown(w, env, inst, es);
    if down.res.Err? then CrOut(down.w, inst, Some(down.res.error))
    else if down.res.value > 0 then CrOut(down.w, inst, None)
    else Release(down.w, env, inst)
  }

  /** The part of a cleanup after its first status write. */
  lemma RemovalLeavesNothing(w: World, env: Env, inst: CR, es: seq<Entry>)
    requires Valid(w, env.home) && Copy(w, env.home, inst) && StillHeld(w, inst)
    requires NothingTaken(inst, es, |w.puts|, Removal(w, env, inst, es).w.puts)
    ensures var out := Removal(w, env, inst, es);
            && Shrinks(w, out.w, inst, es)
            && (!StillHeld(out.w, inst) ==> Clean(out.w, inst, es))
            && (out.err.None? ==> Condemned(out.w, inst, es))
  {
    hide Release, Teardown, Copy, Valid, Evolves, StillHeld, Clean, Condemned, Shrinks, NothingTaken;
    var down, out := Teardown(w, env, inst, es), Removal(w, env, inst, es);
    TeardownKeeps(w, env, inst, es);
    PutsGrow(w, down.w);
    EvolvesHeld(w, down.w, env.home, inst);
    CopyEvolves(w, down.w, env.home, inst);
    ReleasePuts(down.w, env, inst);
    TakenPart(inst, es, |w.puts|, |w.puts|, down.w.puts, out.w.puts);
    TeardownLeavesNothing(w, env, inst, es);
    if down.res == Ok(0) {
      TakenPart(inst, es, |w.puts|, |down.w.puts|, out.w.puts, out.w.puts);
      ReleaseShrinks(down.w, env, inst, es);
      ShrinksTransitive(w, down.w, out.w, inst, es);
      CleanStays(down.w, out.w, inst, es);
    }
  }

  lemma RemovalPuts(w: World, env: Env, inst: CR, es: seq<Entry>)
    requires Valid(w, env.home) && Copy(w, env.home, inst)
    ensures w.puts <= Removal(w, env, inst, es).w.puts
  {
    hide Release, Teardown, Copy, Valid, Evolves;
    TeardownKeeps(w, env, inst, es);
    PutsGrow(w, Teardown(w, env, inst, es).w);
    CopyEvolves(w, Teardown(w, env, inst, es).w, env.home, inst);
    ReleasePuts(Teardown(w, env, inst, es).w, env, inst);
  }

  /** The cleanup records that it is under way, and then finds nothing that is still pending. */
  predicate FindsNothingPending(w: World, env: Env, inst: CR, es: seq<Entry>) {
    var mark := StatusWrite(w, env, inst.(status := DeletingStatus(inst.status, inst.gen)));
    mark.err.None? && Teardown(mark.w, env, mark.inst, es).res == Ok(0)
  }

  /** Cleanup completeness: a cleanup that ends without an error leaves nothing live of what the CR owns at
      the keys of the operand lists or among the deprecated ClusterTasks; and if it let go of the CR, nothing
      at all, as long as nobody re-created any of it meanwhile. Faults and all other edits are allowed. */
  lemma CleanupComplete(w: World, env: Env, inst: CR, es: seq<Entry>)
    requires Valid(w, env.home) && w.cr == Some(inst) && HasOurs(inst)
    requires NothingTaken(inst, es, |w.puts|, CleanupPass(w, env, inst, es).w.puts)
    ensures var out := CleanupPass(w, env, inst, es);
            && Shrinks(w, out.w, inst, es)
            && (!StillHeld(out.w, inst) ==> Clean(out.w, inst, es))
            && (out.err.None? ==> Condemned(out.w, inst, es))
  {
    hide StatusWrite, Removal, Copy, Valid, Clean, Condemned, Shrinks, DeletingStatus, HasOurs, MarkDeleted, Kept,
         NothingTaken;
    var s, out := DeletingStatus(inst.status, inst.gen), CleanupPass(w, env, inst, es);
    CopyOfStored(w, env.home);
    StatusWriteKeeps(w, env, inst, s);
    StatusWriteHeld(w, env, inst, s);
    var mark := StatusWrite(w, env, inst.(status := s));
    KeptValid(w, mark.w, env.home);
    CrWriteShrinks(w, env, inst.(status := s), inst, es);
    if mark.err.None? {
      CleanupIsRemoval(w, env, inst, es);
      RemovalPuts(mark.w, env, mark.inst, es);
      TakenPart(inst, es, |w.puts|, |w.puts|, mark.w.puts, out.w.puts);
      TakenPart(inst, es, |w.puts|, |mark.w.puts|, out.w.puts, out.w.puts);
      SameHeld(mark.w, inst, mark.inst);
      SameClean(mark.w, out.w, inst, mark.inst, es, |mark.w.puts|, out.w.puts);
      RemovalLeavesNothing(mark.w, env, mark.inst, es);
      ShrinksTransitive(w, mark.w, out.w, inst, es);
      SameClean(out.w, out.w, inst, mark.inst, es, 0, []);
      SameHeld(out.w, inst, mark.inst);
    }
  }

  lemma CleanupIsRemoval(w: World, env: Env, inst: CR, es: seq<Entry>)
    requires HasOurs(inst)
    requires StatusWrite(w, env, inst.(status := DeletingStatus(inst.status, inst.gen))).err.None?
    ensures var mark := StatusWrite(w, env, inst.(status := DeletingStatus(inst.status, inst.gen)));
            CleanupPass(w, env, inst, es) == Removal(mark.w, env, mark.inst, es)
  {
    hide StatusWrite, MetaWrite, MarkDeleted, Teardown, DeletingStatus, Released;
  }

  lemma SameHeld(w: World, a: CR, b: CR)
    requires a.uid == b.uid
    ensures StillHeld(w, a) == StillHeld(w, b)
  {
  }

  /** A cleanup lets go of the CR only if it found nothing pending; and if it found nothing pending and made no
      error, it did let go. Any faults and any edits. */
  lemma CleanupLetsGo(w: World, env: Env, inst: CR, es: seq<Entry>)
    requires Valid(w, env.home) && w.cr == Some(inst) && HasOurs(inst)
    ensures var out := CleanupPass(w, env, inst, es);
            && (!StillHeld(out.w, inst) ==> FindsNothingPending(w, env, inst, es))
            && (FindsNothingPending(w, env, inst, es) && out.err.None? ==> !StillHeld(out.w, inst))
  {
    hide StatusWrite, Release, Teardown, Copy, Valid, Evolves, DeletingStatus, HasOurs, StillHeld, Kept;
    var s, out := DeletingStatus(inst.status, inst.gen), CleanupPass(w, env, inst, es);
    CopyOfStored(w, env.home);
    StatusWriteKeeps(w, env, inst, s);
    assert StillHeld(w, inst) by { HeldHere(w, inst); }
    StatusWriteHeld(w, env, inst, s);
    var mark := StatusWrite(w, env, inst.(status := s));
    KeptValid(w, mark.w, env.home);
    if mark.err.None? {
      CleanupIsRemoval(w, env, inst, es);
      var down := Teardown(mark.w, env, mark.inst, es);
      TeardownKeeps(mark.w, env, mark.inst, es);
      EvolvesHeld(mark.w, down.w, env.home, inst);
      CopyEvolves(mark.w, down.w, env.home, mark.inst);
      SameHeld(out.w, inst, mark.inst);
      if down.res == Ok(0) && out.err.None? {
        ReleaseLetsGo(down.w, env, mark.inst);
      }
    }
  }

  lemma HeldHere(w: World, inst: CR)
    requires w.cr == Some(inst) && HasOurs(inst)
    ensures StillHeld(w, inst)
  {
  }

  // ---------- cleaning up comes to an end ----------

  ghost function LiveOwned(w: World, inst: CR, es: seq<Entry>): set<Key> {
    set k | k in w.objs && Owns(inst, es, k, w.objs[k]) && !w.objs[k].terminating
  }

  ghost function DyingOwned(w: World, inst: CR, es: seq<Entry>): set<Key> {
    set k | k in w.objs && Owns(inst, es, k, w.objs[k]) && w.objs[k].terminating
  }

  /** The work that is left: live objects, objects being deleted, and the finalizer. */
  datatype Work = Work(live: nat, dying: nat, held: nat)

  ghost function WorkLeft(w: World, inst: CR, es: seq<Entry>): Work {
    Work(|LiveOwned(w, inst, es)|, |DyingOwned(w, inst, es)|, if StillHeld(w, inst) then 1 else 0)
  }

  /** The lexicographic order on the work left. */
  predicate Less(a: Work, b: Work) {
    || a.live < b.live
    || (a.live == b.live && a.dying < b.dying)
    || (a.live == b.live && a.dying == b.dying && a.held < b.held)
  }

  lemma SubsetSize<T>(a: set<T>, b: set<T>)
    requires a <= b
    ensures |a| <= |b| && (|a| == |b| ==> a == b)
  {
    assert b == a + (b - a);
    assert |b| == |a| + |b - a|;
    if |a| == |b| {
      assert b - a == {};
    }
  }

  lemma ShrinkingWork(w: World, w': World, inst: CR, es: seq<Entry>)
    requires Shrinks(w, w', inst, es)
    ensures LiveOwned(w', inst, es) <= LiveOwned(w, inst, es)
    ensures LiveOwned(w', inst, es) == LiveOwned(w, inst, es) ==> DyingOwned(w', inst, es) <= DyingOwned(w, inst, es)
  {
    hide Owns;
    if LiveOwned(w', inst, es) == LiveOwned(w, inst, es) {
      forall k <- DyingOwned(w', inst, es)
        ensures k in DyingOwned(w, inst, es)
      {
        assert w.objs[k].terminating || k in LiveOwned(w, inst, es);
      }
    }
  }

  /** As long as nothing is re-created, the work never grows, whoever deletes whatever. */
  lemma WorkNeverGrows(w: World, w': World, inst: CR, es: seq<Entry>)
    requires Shrinks(w, w', inst, es) && (StillHeld(w', inst) ==> StillHeld(w, inst))
    ensures WorkLeft(w', inst, es) == WorkLeft(w, inst, es) || Less(WorkLeft(w', inst, es), WorkLeft(w, inst, es))
    ensures StillHeld(w, inst) && !StillHeld(w', inst) ==> Less(WorkLeft(w', inst, es), WorkLeft(w, inst, es))
  {
    hide LiveOwned, DyingOwned, StillHeld;
    ShrinkingWork(w, w', inst, es);
    SubsetSize(LiveOwned(w', inst, es), LiveOwned(w, inst, es));
    if LiveOwned(w', inst, es) == LiveOwned(w, inst, es) {
      SubsetSize(DyingOwned(w', inst, es), DyingOwned(w, inst, es));
    }
  }

  /** Each object that is finally removed lowers the work. */
  lemma CollectionLowersWork(w: World, home: Name, inst: CR, es: seq<Entry>, k: Key)
    requires k in DyingOwned(w, inst, es)
    ensures Less(WorkLeft(ApplyEdit(w, home, FinishDelete(k)), inst, es), WorkLeft(w, inst, es))
  {
    hide Owns, HasOurs;
    var w' := ApplyEdit(w, home, FinishDelete(k));
    assert LiveOwned(w', inst, es) == LiveOwned(w, inst, es);
    assert DyingOwned(w', inst, es) == DyingOwned(w, inst, es) - {k};
  }

  /** A cleanup pass without error lowers the work if it finds something live, and if it finds nothing pending;
      the others never raise it. */
  lemma CleanupLowersWork(w: World, env: Env, inst: CR, es: seq<Entry>)
    requires Valid(w, env.home) && w.cr == Some(inst) && HasOurs(inst)
    requires NothingTaken(inst, es, |w.puts|, CleanupPass(w, env, inst, es).w.puts)
    ensures var out, before := CleanupPass(w, env, inst, es), WorkLeft(w, inst, es);
            var after := WorkLeft(out.w, inst, es);
            && (after == before || Less(after, before))
            && (out.err.None? ==> after.live == 0)
            && (out.err.None? && before.live > 0 ==> Less(after, before))
            && (out.err.None? && FindsNothingPending(w, env, inst, es) ==> Less(after, before))
            && (!StillHeld(out.w, inst) ==> Less(after, before))
  {
    hide CleanupPass, Valid, Shrinks, Clean, FindsNothingPending, NothingTaken, HasOurs, StillHeld;
    var out := CleanupPass(w, env, inst, es);
    CleanupComplete(w, env, inst, es);
    CleanupLetsGo(w, env, inst, es);
    HeldHere(w, inst);
    WorkNeverGrows(w, out.w, inst, es);
    if out.err.None? {
      assert LiveOwned(out.w, inst, es) == {} by { hide Owns; }
    }
    hide LiveOwned, DyingOwned;
  }
}

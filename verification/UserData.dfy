/** What users put on operand objects, and what the operator does to it. */
module UserData {
  import opened Kube
  import opened ApiServer
  import opened Labels
  import opened Cache
  import opened Ownership
  import opened Resource
  import opened Operands
  import opened Controller
  import opened Expectations
  import opened CacheRefinement
  import opened Deletion
  import opened Invariants
  import opened Runs

  // ---------- labels and annotations of users ----------

  datatype Mark = Label(key: string, value: string) | Annotation(key: string, value: string)

  predicate In(mark: Mark, labels: map<string, string>, annotations: map<string, string>) {
    match mark
    case Label(k, v) => k in labels && labels[k] == v
    case Annotation(k, v) => k in annotations && annotations[k] == v
  }

  predicate Has(o: Obj, mark: Mark) {
    In(mark, o.labels, o.annotations)
  }

  /** The object says something about the mark's key. */
  predicate Sets(o: Obj, mark: Mark) {
    match mark
    case Label(k, _) => k in o.labels
    case Annotation(k, _) => k in o.annotations
  }

  /** The keys that the operator adds to every object of its own accord. */
  predicate OperatorsOwn(mark: Mark) {
    match mark
    case Label(k, _) =>
      || k == NAME_LABEL || k == COMPONENT_LABEL || k == MANAGED_BY_LABEL || k == PART_OF_LABEL || k == VERSION_LABEL
      || k == TASKS_VERSION_LABEL
    case Annotation(k, _) => k == NAMESPACED_NAME || k == OWNER_TYPE
  }

  /** The object with this uid carries the mark for as long as it is stored. */
  ghost predicate Carried(w: World, k: Key, uid: nat, mark: Mark) {
    && uid < w.uid
    && (k in w.objs && w.objs[k].uid == uid ==> Has(w.objs[k], mark))
  }

  /** No user takes the mark off the object. */
  ghost predicate LeftAlone(env: Env, k: Key, mark: Mark) {
    forall n: nat :: forall e <- env.turn(n).edits :: e.PutObj? && e.key == k ==> In(mark, e.labels, e.annotations)
  }

  /** The entry does not say anything about the mark's key, and is in none of the two lists whose metadata the
      pipelines operand assigns. */
  predicate Silent(e: Entry, k: Key, mark: Mark) {
    && WellKinded(e)
    && (e.obj.kind == k.kind && e.obj.name == k.name ==>
          !Sets(e.obj, mark) && !e.rule.PClusterRole? && !e.rule.PServiceAccount?)
  }

  lemma {:induction false} EditsCarry(w: World, home: Name, edits: seq<Edit>, k: Key, uid: nat, mark: Mark)
    requires Carried(w, k, uid, mark)
    requires forall e <- edits :: e.PutObj? && e.key == k ==> In(mark, e.labels, e.annotations)
    ensures Carried(ApplyEdits(w, home, edits), k, uid, mark)
    decreases |edits|
  {
    hide In;
    if edits != [] {
      assert edits[0] in edits;
      EditCarries(w, home, edits[0], k, uid, mark);
      EditsCarry(ApplyEdit(w, home, edits[0]), home, edits[1..], k, uid, mark);
    }
  }

  lemma EditCarries(w: World, home: Name, e: Edit, k: Key, uid: nat, mark: Mark)
    requires Carried(w, k, uid, mark)
    requires e.PutObj? && e.key == k ==> In(mark, e.labels, e.annotations)
    ensures Carried(ApplyEdit(w, home, e), k, uid, mark)
  {
    hide In;
  }

  lemma BeginCarries(w: World, env: Env, k: Key, uid: nat, mark: Mark)
    requires Carried(w, k, uid, mark) && LeftAlone(env, k, mark)
    ensures Carried(Begin(w, env), k, uid, mark)
  {
    EditsCarry(w, env.home, env.turn(w.calls).edits, k, uid, mark);
  }

  lemma ReadCarries(w: World, env: Env, at: Key, k: Key, uid: nat, mark: Mark)
    requires Carried(w, k, uid, mark) && LeftAlone(env, k, mark)
    ensures Carried(GetObj(w, env, at).w, k, uid, mark) && Carried(DeleteObject(w, env, at).w, k, uid, mark)
  {
    hide Begin, In, LeftAlone;
    BeginCarries(w, env, k, uid, mark);
  }

  /** A newly created object has another uid. */
  lemma CreateCarries(w: World, env: Env, o: Obj, k: Key, uid: nat, mark: Mark)
    requires Carried(w, k, uid, mark) && LeftAlone(env, k, mark)
    ensures Carried(CreateObj(w, env, o).w, k, uid, mark)
  {
    hide Begin, In, LeftAlone;
    BeginCarries(w, env, k, uid, mark);
  }

  lemma UpdateCarries(w: World, env: Env, o: Obj, k: Key, uid: nat, mark: Mark)
    requires Valid(w, env.home) && Carried(w, k, uid, mark) && LeftAlone(env, k, mark) && Snapshot(w, o)
    requires KeyOf(o) == k && w.objs[k].uid == uid ==> Has(o, mark)
    ensures Carried(UpdateObj(w, env, o).w, k, uid, mark)
  {
    hide Begin, In, LeftAlone, Valid;
    BeginCarries(w, env, k, uid, mark);
    SnapshotLasts(w, env, o);
  }

  /** The mutation keeps what the expected object does not mention. */
  lemma MutationCarries(r: Recipe, cfg: Config, x: Obj, found: Obj, hit: bool, mark: Mark)
    requires Has(found, mark) && !Sets(x, mark) && !CopiesMeta(r.update)
    ensures Has(Mutated(r, cfg, x, found, hit), mark)
  {
  }

  lemma EngineCarries(w: World, env: Env, c: Versions, r: Recipe, x: Obj, k: Key, uid: nat, mark: Mark)
    requires Valid(w, env.home) && Carried(w, k, uid, mark) && LeftAlone(env, k, mark)
    requires KeyOf(x) == k ==> !Sets(x, mark) && !CopiesMeta(r.update)
    ensures Carried(CreateOrUpdate(w, env, c, r, x).w, k, uid, mark)
  {
    hide GetObj, CreateObj, UpdateObj, DeleteObject, Mutated, Hit, Blank, Valid, Evolves, Carried, LeftAlone, Has, Sets,
         CopiesMeta, Snapshot;
    var got := GetObj(w, env, KeyOf(x));
    GetKeeps(w, env, KeyOf(x));
    ReadCarries(w, env, KeyOf(x), k, uid, mark);
    if got.res.Err? {
      CreateCarries(got.w, env, Mutated(r, env.cfg, x, Blank(x), Hit(c, Blank(x))), k, uid, mark);
    } else {
      var existing := got.res.value;
      var hit := Hit(c, existing);
      var next := Mutated(r, env.cfg, x, existing, hit);
      ReadSnapshot(w, env, KeyOf(x));
      MutationKeepsSnapshot(got.w, r, env.cfg, x, existing, hit);
      ReadCarries(got.w, env, KeyOf(next), k, uid, mark);
      if KeyOf(x) == k && existing.uid == uid {
        ReadHas(got.w, k, uid, mark, existing);
        MutationCarries(r, env.cfg, x, existing, hit, mark);
      }
      UpdateCarries(got.w, env, next, k, uid, mark);
    }
  }

  lemma ReadSnapshot(w: World, env: Env, k: Key)
    requires Valid(w, env.home) && GetObj(w, env, k).res.Ok?
    ensures var r := GetObj(w, env, k);
            && Snapshot(r.w, r.res.value) && KeyOf(r.res.value) == k && k in r.w.objs
            && r.res.value == r.w.objs[k].(typed := r.res.value.typed)
  {
    hide Begin;
    GetKeeps(w, env, k);
  }

  lemma ReadHas(w: World, k: Key, uid: nat, mark: Mark, o: Obj)
    requires Carried(w, k, uid, mark) && k in w.objs && o == w.objs[k].(typed := o.typed) && o.uid == uid
    ensures Has(o, mark)
  {
  }

  lemma PreparedSilent(cfg: Config, inst: CR, e: Entry, k: Key, mark: Mark)
    requires Silent(e, k, mark) && !OperatorsOwn(mark)
    requires Prepared(e.rule, cfg, inst.nn.ns, inst.spec, e.obj).Some?
    ensures Silent(Entry(e.rule, Prepared(e.rule, cfg, inst.nn.ns, inst.spec, e.obj).value), k, mark)
  {
    hide TaskSteps, SubjectsIn, CopiesMeta, TargetNs;
  }

  lemma MarkedSilent(inst: CR, rule: Rule, p: Obj, k: Key, mark: Mark)
    requires Silent(Entry(rule, p), k, mark) && !OperatorsOwn(mark)
    ensures var x := MarkedFor(inst, RecipeOf(rule, false), p).obj;
            KeyOf(x) == KeyOf(p) && Silent(Entry(rule, x), k, mark)
  {
    hide CopiesMeta, UpdateOf;
  }

  /** The object that an entry stands for mentions no more than the entry, except for the operator's own keys. */
  lemma ExpectedSilent(cfg: Config, inst: CR, e: Entry, k: Key, mark: Mark)
    requires Silent(e, k, mark) && !OperatorsOwn(mark)
    requires Prepared(e.rule, cfg, inst.nn.ns, inst.spec, e.obj).Some?
    ensures var p := Prepared(e.rule, cfg, inst.nn.ns, inst.spec, e.obj).value;
            var x := MarkedFor(inst, RecipeOf(e.rule, false), p).obj;
            && Silent(Entry(e.rule, x), k, mark)
            && (KeyOf(x) == k ==> !Sets(x, mark) && !CopiesMeta(UpdateOf(e.rule)))
  {
    assert !e.rule.PClusterRole? && !e.rule.PServiceAccount? ==> !CopiesMeta(UpdateOf(e.rule));
    hide Prepared, CopiesMeta, MarkedFor, Sets, OperatorsOwn;
    PreparedSilent(cfg, inst, e, k, mark);
    MarkedSilent(inst, e.rule, Prepared(e.rule, cfg, inst.nn.ns, inst.spec, e.obj).value, k, mark);
  }

  lemma EntryCarries(w: World, env: Env, c: Versions, inst: CR, e: Entry, k: Key, uid: nat, mark: Mark)
    requires Valid(w, env.home) && Carried(w, k, uid, mark) && LeftAlone(env, k, mark)
    requires Silent(e, k, mark) && !OperatorsOwn(mark)
    ensures var out := ReconcileEntry(w, env, c, inst, e, false);
            Carried(out.w, k, uid, mark) && Silent(out.entries[0], k, mark)
  {
    hide CreateOrUpdate, Valid, Prepared, Remember, MarkedFor, Carried, LeftAlone, Silent, Sets, CopiesMeta,
        OperatorsOwn;
    var p := Prepared(e.rule, env.cfg, inst.nn.ns, inst.spec, e.obj);
    if !Skipped(e, inst.spec) && p.Some? {
      var r := RecipeOf(e.rule, false);
      ExpectedSilent(env.cfg, inst, e, k, mark);
      EngineCarries(w, env, c, r, MarkedFor(inst, r, p.value).obj, k, uid, mark);
    }
  }

  lemma CleanedCarries(w: World, env: Env, inst: CR, x: Obj, k: Key, uid: nat, mark: Mark)
    requires Carried(w, k, uid, mark) && LeftAlone(env, k, mark)
    ensures Carried(Cleaned(w, env, inst, x).w, k, uid, mark)
  {
    hide GetObj, DeleteObject, Carried, LeftAlone, IsResourceOwned;
    ReadCarries(w, env, KeyOf(x), k, uid, mark);
    var got := GetObj(w, env, KeyOf(x));
    if got.res.Ok? {
      ReadCarries(got.w, env, KeyOf(got.res.value), k, uid, mark);
    }
  }

  lemma CarriedInductive(env: Env, k: Key, uid: nat, mark: Mark)
    requires LeftAlone(env, k, mark) && !OperatorsOwn(mark)
    ensures Inductive(w => Carried(w, k, uid, mark), e => Silent(e, k, mark), env)
  {
    hide Carried, Silent, LeftAlone, Cleaned, ReconcileEntry, ApplyEdits, OperatorsOwn, Valid;
    var inv := (w: World) => Carried(w, k, uid, mark);
    var known := (e: Entry) => Silent(e, k, mark);
    assert AboutObjects(inv) by { CarriedAboutObjects(k, uid, mark); }
    assert UsersKeep(inv, env) by {
      forall n: nat, w: World | Valid(w, env.home) && inv(w)
        ensures inv(ApplyEdits(w, env.home, env.turn(n).edits))
      {
        UserEditsCarry(w, env, n, k, uid, mark);
      }
    }
    assert EntriesKeep(inv, known, env) by {
      forall w: World, c: Versions, inst: CR, e: Entry | Valid(w, env.home) && inv(w) && known(e) && inst.nn == env.home
        ensures var out := ReconcileEntry(w, env, c, inst, e, false); inv(out.w) && known(out.entries[0])
      {
        EntryCarries(w, env, c, inst, e, k, uid, mark);
      }
    }
    assert CleaningKeeps(inv, env) by {
      forall w: World, inst: CR, x: Obj | Valid(w, env.home) && inv(w)
        ensures inv(Cleaned(w, env, inst, x).w)
      {
        CleanedCarries(w, env, inst, x, k, uid, mark);
      }
    }
  }

  lemma UserEditsCarry(w: World, env: Env, n: nat, k: Key, uid: nat, mark: Mark)
    requires Carried(w, k, uid, mark) && LeftAlone(env, k, mark)
    ensures Carried(ApplyEdits(w, env.home, env.turn(n).edits), k, uid, mark)
  {
    EditsCarry(w, env.home, env.turn(n).edits, k, uid, mark);
  }

  lemma CarriedAboutObjects(k: Key, uid: nat, mark: Mark)
    ensures AboutObjects(w => Carried(w, k, uid, mark))
  {
  }

  /** User metadata survives: a label or annotation that neither the operator nor a user's later edit sets
      stays on the object for as long as that object exists, over any run and whatever the cache says. */
  lemma UserMetadataSurvives(w: World, env: Env, m: Memory, bundle: seq<Entry>, steps: seq<Event>, k: Key, mark: Mark)
    requires Valid(w, env.home) && k in w.objs && Has(w.objs[k], mark)
    requires LeftAlone(env, k, mark) && !OperatorsOwn(mark)
    requires (forall e <- m.entries :: Silent(e, k, mark)) && (forall e <- bundle :: Silent(e, k, mark))
    ensures var out := Run(w, env, m, bundle, steps, false).w;
            k in out.objs && out.objs[k].uid == w.objs[k].uid ==> Has(out.objs[k], mark)
  {
    hide Run, LeftAlone, Silent, Has, OperatorsOwn, Inductive;
    var uid := w.objs[k].uid;
    var inv := (w: World) => Carried(w, k, uid, mark);
    var known := (e: Entry) => Silent(e, k, mark);
    CarriedInductive(env, k, uid, mark);
    assert Inductive(inv, known, env);
    assert AllKnown(known, m.entries) && AllKnown(known, bundle);
    assert inv(w);
    RunInv(inv, known, w, env, m, bundle, steps);
    assert inv(Run(w, env, m, bundle, steps, false).w);
  }

  /** Where the update function assigns metadata nothing of the user's survives: after the engine succeeded
      the object has exactly the expected labels and annotations. */
  lemma AssignedMetadataIsExact(w: World, env: Env, c: Versions, r: Recipe, x: Obj)
    requires Valid(w, env.home) && Named(c) && Honest(w, c, r.update, env.cfg, x) && Suits(r.update, x.kind)
    requires CopiesMeta(r.update)
    ensures var out := CreateOrUpdate(w, env, c, r, x);
            out.res.Ok? && out.res.value != ResultDeleted && !out.found.terminating ==>
              out.found.labels == x.labels && out.found.annotations == x.annotations
  {
    hide CreateOrUpdate, Valid, Named, Honest, Evolves;
    EngineSettles(w, env, c, r, x);
    var out := CreateOrUpdate(w, env, c, r, x);
    if out.res.Ok? && out.res.value != ResultDeleted && !out.found.terminating {
      assert out.found.labels.Keys == x.labels.Keys && out.found.annotations.Keys == x.annotations.Keys;
    }
  }

  // ---------- owner references of users ----------

  lemma WritesKeepRefs(w: World, env: Env, o: Obj)
    requires Valid(w, env.home) && RefsAtHome(w, env.home) && NoForeignRefs(env) && o.ownerRefs == []
    ensures RefsAtHome(CreateObj(w, env, o).w, env.home) && RefsAtHome(UpdateObj(w, env, o).w, env.home)
  {
    hide Begin, NoForeignRefs, Valid;
    BeginKeepsRefs(w, env);
  }

  lemma EngineKeepsRefs(w: World, env: Env, c: Versions, r: Recipe, x: Obj)
    requires Valid(w, env.home) && RefsAtHome(w, env.home) && NoForeignRefs(env) && x.ownerRefs == []
    ensures RefsAtHome(CreateOrUpdate(w, env, c, r, x).w, env.home)
  {
    hide GetObj, CreateObj, UpdateObj, DeleteObject, Mutated, Hit, Blank, Valid, Evolves, RefsAtHome, NoForeignRefs;
    var got := GetObj(w, env, KeyOf(x));
    GetKeeps(w, env, KeyOf(x));
    CallsKeepRefs(w, env, KeyOf(x));
    if got.res.Err? {
      var made := Mutated(r, env.cfg, x, Blank(x), Hit(c, Blank(x)));
      MutatedRefs(r, env.cfg, x, Blank(x), Hit(c, Blank(x)));
      WritesKeepRefs(got.w, env, made);
    } else {
      var next := Mutated(r, env.cfg, x, got.res.value, Hit(c, got.res.value));
      MutatedRefs(r, env.cfg, x, got.res.value, Hit(c, got.res.value));
      CallsKeepRefs(got.w, env, KeyOf(next));
      if next != got.res.value {
        WritesKeepRefs(got.w, env, next);
      }
    }
  }

  lemma MutatedRefs(r: Recipe, cfg: Config, x: Obj, found: Obj, hit: bool)
    requires x.ownerRefs == []
    ensures Mutated(r, cfg, x, found, hit) != found ==> Mutated(r, cfg, x, found, hit).ownerRefs == []
    ensures found == Blank(x) ==> Mutated(r, cfg, x, found, hit).ownerRefs == []
  {
  }

  lemma EntryKeepsRefs(w: World, env: Env, c: Versions, inst: CR, e: Entry)
    requires Valid(w, env.home) && RefsAtHome(w, env.home) && NoForeignRefs(env)
    ensures RefsAtHome(ReconcileEntry(w, env, c, inst, e, false).w, env.home)
  {
    hide CreateOrUpdate, Valid, Prepared, Remember, RefsAtHome, NoForeignRefs;
    var p := Prepared(e.rule, env.cfg, inst.nn.ns, inst.spec, e.obj);
    if !Skipped(e, inst.spec) && p.Some? {
      var r := RecipeOf(e.rule, false);
      EngineKeepsRefs(w, env, c, r, MarkedFor(inst, r, p.value).obj);
    }
  }

  lemma CleanedKeepsRefs(w: World, env: Env, inst: CR, x: Obj)
    requires Valid(w, env.home) && RefsAtHome(w, env.home) && NoForeignRefs(env)
    ensures RefsAtHome(Cleaned(w, env, inst, x).w, env.home)
  {
    hide GetObj, DeleteObject, RefsAtHome, NoForeignRefs, Valid, Evolves;
    CallsKeepRefs(w, env, KeyOf(x));
    GetKeeps(w, env, KeyOf(x));
    var got := GetObj(w, env, KeyOf(x));
    if got.res.Ok? {
      CallsKeepRefs(got.w, env, KeyOf(got.res.value));
    }
  }

  lemma RefsInductive(env: Env)
    requires NoForeignRefs(env)
    ensures Inductive(w => RefsAtHome(w, env.home), e => true, env)
  {
    hide RefsAtHome, NoForeignRefs, Cleaned, ReconcileEntry, ApplyEdits, Valid;
    var inv := (w: World) => RefsAtHome(w, env.home);
    var known := (e: Entry) => true;
    assert AboutObjects(inv) by { RefsAboutObjects(env.home); }
    assert UsersKeep(inv, env) by {
      forall n: nat, w: World | Valid(w, env.home) && inv(w)
        ensures inv(ApplyEdits(w, env.home, env.turn(n).edits))
      {
        UserEditsKeepRefs(w, env, n);
      }
    }
    assert EntriesKeep(inv, known, env) by {
      forall w: World, c: Versions, inst: CR, e: Entry | Valid(w, env.home) && inv(w) && known(e) && inst.nn == env.home
        ensures var out := ReconcileEntry(w, env, c, inst, e, false); inv(out.w) && known(out.entries[0])
      {
        EntryKeepsRefs(w, env, c, inst, e);
      }
    }
    assert CleaningKeeps(inv, env) by {
      forall w: World, inst: CR, x: Obj | Valid(w, env.home) && inv(w)
        ensures inv(Cleaned(w, env, inst, x).w)
      {
        CleanedKeepsRefs(w, env, inst, x);
      }
    }
  }

  lemma UserEditsKeepRefs(w: World, env: Env, n: nat)
    requires Valid(w, env.home) && RefsAtHome(w, env.home) && NoForeignRefs(env)
    ensures RefsAtHome(ApplyEdits(w, env.home, env.turn(n).edits), env.home)
  {
    EditsKeepRefs(w, env.home, env.turn(n).edits);
  }

  lemma RefsAboutObjects(home: Name)
    ensures AboutObjects(w => RefsAtHome(w, home))
  {
  }

  /** In every reachable state: if users put no owner references on objects outside the CR's namespace, then
      whatever state a run has reached, the index into the expected owner references is in bounds while tearing
      down, whatever else users do meanwhile; and if nobody slips a stranger in meanwhile, only objects that the
      CR owns are deleted. */
  lemma ReachableTeardownIsSafe(w: World, env: Env, m: Memory, bundle: seq<Entry>, steps: seq<Event>, inst: CR)
    requires Valid(w, env.home) && RefsAtHome(w, env.home) && NoForeignRefs(env)
    requires inst.nn == env.home && inst.nn.name != ""
    ensures var run := Run(w, env, m, bundle, steps, false);
            var down := Teardown(run.w, env, inst, run.m.entries);
            && down.res != Err(Panicked)
            && (NothingSlipped(inst, run.m.entries, |run.w.puts|, down.w.puts) ==>
                  DeletesOwned(run.w.audit, down.w.audit, inst))
  {
    hide Run, RefsAtHome, NoForeignRefs, Inductive, Teardown, Valid, DeletesOwned, NothingSlipped;
    var inv := (w: World) => RefsAtHome(w, env.home);
    var known := (e: Entry) => true;
    RefsInductive(env);
    assert Inductive(inv, known, env);
    assert AllKnown(known, m.entries) && AllKnown(known, bundle);
    assert inv(w);
    RunInv(inv, known, w, env, m, bundle, steps);
    var run := Run(w, env, m, bundle, steps, false);
    assert inv(run.w);
    TeardownInBounds(run.w, env, inst, run.m.entries);
    if NothingSlipped(inst, run.m.entries, |run.w.puts|, Teardown(run.w, env, inst, run.m.entries).w.puts) {
      TeardownDeletesOwned(run.w, env, inst, run.m.entries);
    }
  }
}

/** The version cache is invisible: with it the operator does exactly what it would do if it called every
    update function on every pass. */
module CacheRefinement {
  import opened Kube
  import opened ApiServer
  import opened Cache
  import opened Resource
  import opened Operands
  import opened StatusReport
  import opened Controller
  import opened Tracking
  import opened Expectations
  import opened Runs

  // ---------- what a stamp is worth ----------

  predicate CopiesMeta(u: UpdateFunc) {
    u.CopyMeta? || u.CopyMetaAndPayload?
  }

  /** The update function would change nothing: the payload is as expected, and where the function also
      assigns labels and annotations the object has no others. */
  predicate InSync(u: UpdateFunc, cfg: Config, x: Obj, o: Obj) {
    && o.payload == SyncedPayload(u, cfg, x.payload, o.payload)
    && (CopiesMeta(u) ==> o.labels.Keys <= x.labels.Keys && o.annotations.Keys <= x.annotations.Keys)
  }

  lemma SyncedUpdateIsNoop(u: UpdateFunc, cfg: Config, x: Obj, o: Obj)
    requires InSync(u, cfg, x, o)
    ensures ApplyUpdate(u, cfg, x, Merged(x, o)) == Merged(x, o)
  {
    if CopiesMeta(u) {
      assert o.labels + x.labels == x.labels;
      assert o.annotations + x.annotations == x.annotations;
    }
  }

  /** The cache entry for an expected object is honest: it speaks about the past, and as long as it matches
      the stored object that object is in sync. */
  ghost predicate Honest(w: World, c: Versions, u: UpdateFunc, cfg: Config, x: Obj) {
    var ck := CacheKey(Some(x.kind), x.name, x.ns);
    ck in c ==>
      var stamp := c[ck];
      && stamp.uid < w.uid && stamp.rv < w.rv
      && (KeyOf(x) in w.objs && w.objs[KeyOf(x)].uid == stamp.uid ==>
            var o := w.objs[KeyOf(x)];
            && stamp.rv <= o.rv && stamp.gen <= o.gen
            && (Matches(stamp, o) ==> InSync(u, cfg, x, o)))
  }

  /** The cache holds no object without a kind. */
  ghost predicate Named(c: Versions) {
    forall ck <- c :: ck.kind.Some?
  }

  /** Update functions that assign metadata are used only for kinds that do not count generations. */
  predicate Suits(u: UpdateFunc, kind: Kind) {
    HasGeneration(kind) ==> !CopiesMeta(u)
  }

  /** Honesty survives whatever users and the operator do to the cluster, because a version is never reused
      and a generation pins the payload. */
  lemma HonestEvolves(w: World, w': World, home: Name, c: Versions, c': Versions, u: UpdateFunc, cfg: Config, x: Obj)
    requires Valid(w, home) && Valid(w', home) && ObjsEvolve(w, w')
    requires Honest(w, c, u, cfg, x) && Suits(u, x.kind)
    requires var ck := CacheKey(Some(x.kind), x.name, x.ns); ck in c' ==> ck in c && c'[ck] == c[ck]
    ensures Honest(w', c', u, cfg, x)
  {
    var k := KeyOf(x);
    if k in w'.objs && k in w.objs {
      assert ObjFrom(w, k, w'.objs[k]);
    } else if k in w'.objs {
      assert ObjFrom(w, k, w'.objs[k]);
    }
  }

  /** Honesty for an entry is honesty for the entry as marked: the marks only add labels and annotations. */
  lemma HonestMarked(w: World, c: Versions, u: UpdateFunc, cfg: Config, x: Obj, y: Obj)
    requires Honest(w, c, u, cfg, x)
    requires KeyOf(y) == KeyOf(x) && y.payload == x.payload
    requires x.labels.Keys <= y.labels.Keys && x.annotations.Keys <= y.annotations.Keys
    ensures Honest(w, c, u, cfg, y)
  {
  }

  // ---------- one object ----------

  /** An honest cache never changes what the engine does. */
  lemma EngineRefines(w: World, env: Env, c: Versions, c': Versions, r: Recipe, x: Obj)
    requires Valid(w, env.home) && Honest(w, c, r.update, env.cfg, x) && Suits(r.update, x.kind)
    requires !r.always && Named(c)
    ensures CreateOrUpdate(w, env, c, r, x) == CreateOrUpdate(w, env, c', r.(always := true), x)
  {
    hide GetObj, CreateObj, UpdateObj, DeleteObject, Hit, InSync, Mutated, Blank;
    var got := GetObj(w, env, KeyOf(x));
    if got.res.Ok? {
      HitAfterRead(w, env, c, r.update, x);
      MutationIgnoresCache(r, env.cfg, x, got.res.value, Hit(c, got.res.value), Hit(c', got.res.value));
    } else {
      BlankMisses(c, x);
      BlankMisses(c', x);
      MutationIgnoresCache(r, env.cfg, x, Blank(x), Hit(c, Blank(x)), Hit(c', Blank(x)));
    }
    hide Valid, Honest;
  }

  lemma MutationIgnoresCache(r: Recipe, cfg: Config, x: Obj, found: Obj, hit: bool, hit': bool)
    requires !r.always && (hit ==> InSync(r.update, cfg, x, found))
    ensures Mutated(r, cfg, x, found, hit) == Mutated(r.(always := true), cfg, x, found, hit')
  {
    if hit {
      SyncedUpdateIsNoop(r.update, cfg, x, found);
    }
  }

  lemma HitAfterRead(w: World, env: Env, c: Versions, u: UpdateFunc, x: Obj)
    requires Valid(w, env.home) && Named(c) && Honest(w, c, u, env.cfg, x) && Suits(u, x.kind)
    ensures var got := GetObj(w, env, KeyOf(x));
            got.res.Ok? && Hit(c, got.res.value) ==> InSync(u, env.cfg, x, got.res.value)
  {
    hide GetObj, Honest, InSync, Hit;
    GetKeeps(w, env, KeyOf(x));
    EngineReads(w, env, x);
    var got := GetObj(w, env, KeyOf(x));
    HonestEvolves(w, got.w, env.home, c, c, u, env.cfg, x);
    if got.res.Ok? && Hit(c, got.res.value) {
      HitInSync(got.w, c, u, env.cfg, x, got.res.value);
    }
  }

  lemma EngineReads(w: World, env: Env, x: Obj)
    requires Valid(w, env.home)
    ensures ObjsEvolve(w, GetObj(w, env, KeyOf(x)).w)
  {
    GetKeeps(w, env, KeyOf(x));
  }

  lemma HitInSync(w: World, c: Versions, u: UpdateFunc, cfg: Config, x: Obj, found: Obj)
    requires Honest(w, c, u, cfg, x) && Hit(c, found)
    requires KeyOf(x) in w.objs && KeyOf(w.objs[KeyOf(x)]) == KeyOf(x)
        && found == w.objs[KeyOf(x)].(typed := found.typed)
    requires Named(c)
    ensures InSync(u, cfg, x, found)
  {
  }

  /** The parts of an object that a write may set. */
  predicate SameContent(a: Obj, b: Obj) {
    && KeyOf(a) == KeyOf(b) && a.labels == b.labels && a.annotations == b.annotations
    && a.ownerRefs == b.ownerRefs && a.payload == b.payload
  }

  lemma CreatedAsSent(w: World, env: Env, o: Obj)
    requires Valid(w, env.home)
    ensures var r := CreateObj(w, env, o);
            r.res.Ok? ==> && KeyOf(o) in r.w.objs && r.res.value == r.w.objs[KeyOf(o)].(typed := r.res.value.typed)
                          && SameContent(r.res.value, o) && !r.res.value.terminating
  {
    hide Begin;
  }

  /** The object was read from this state. */
  predicate Snapshot(w: World, o: Obj) {
    && KeyOf(o) in w.objs
    && var stored := w.objs[KeyOf(o)];
       stored.rv == o.rv && stored.finalizers == o.finalizers && stored.terminating == o.terminating
  }

  lemma SnapshotLasts(w: World, env: Env, o: Obj)
    requires Valid(w, env.home) && Snapshot(w, o)
    ensures var w1 := Begin(w, env);
            KeyOf(o) in w1.objs && w1.objs[KeyOf(o)].rv == o.rv ==> w1.objs[KeyOf(o)] == w.objs[KeyOf(o)]
  {
    BeginKeeps(w, env);
    var w1 := Begin(w, env);
    hide Begin;
    if KeyOf(o) in w1.objs {
      assert ObjFrom(w, KeyOf(o), w1.objs[KeyOf(o)]);
    }
  }

  lemma UpdatedAsSent(w: World, env: Env, o: Obj)
    requires Valid(w, env.home) && Snapshot(w, o)
    ensures var r := UpdateObj(w, env, o);
            r.res.Ok? ==> && KeyOf(o) in r.w.objs && r.res.value == r.w.objs[KeyOf(o)].(typed := r.res.value.typed)
                          && SameContent(r.res.value, o) && r.res.value.terminating == o.terminating
  {
    SnapshotLasts(w, env, o);
    hide Begin;
  }

  /** What the engine leaves behind when it succeeds: the object it reports is the stored one, live objects
      are in sync with what was expected, and their metadata is merged in. */
  ghost predicate Settled(r: Recipe, cfg: Config, x: Obj, out: EngineOut) {
    && KeyOf(out.found) == KeyOf(x)
    && (out.res != Ok(ResultDeleted) ==>
          && KeyOf(x) in out.w.objs && out.found == out.w.objs[KeyOf(x)].(typed := out.found.typed)
          && (!out.found.terminating ==> InSync(r.update, cfg, x, out.found) && CarriesMeta(x, out.found)))
  }

  /** All labels and annotations that are expected, and exactly the owner references. */
  predicate CarriesMeta(x: Obj, o: Obj) {
    && o.ownerRefs == x.ownerRefs
    && (forall k <- x.labels :: k in o.labels && o.labels[k] == x.labels[k])
    && (forall k <- x.annotations :: k in o.annotations && o.annotations[k] == x.annotations[k])
  }

  lemma MutationSettles(r: Recipe, cfg: Config, x: Obj, found: Obj, hit: bool)
    requires (r.always || !hit || InSync(r.update, cfg, x, found)) && !found.terminating
    ensures var next := Mutated(r, cfg, x, found, hit);
            InSync(r.update, cfg, x, next) && CarriesMeta(x, next) && KeyOf(next) == KeyOf(found)
  {
  }

  lemma EngineSettlesNew(w: World, env: Env, c: Versions, r: Recipe, x: Obj)
    requires Valid(w, env.home) && GetObj(w, env, KeyOf(x)).res.Err?
    ensures var out := CreateOrUpdate(w, env, c, r, x); out.res.Ok? ==> Settled(r, env.cfg, x, out)
  {
    hide Evolves, Valid, CreateObj, GetObj, Mutated, Hit, InSync, CarriesMeta;
    var blank := Mutated(r, env.cfg, x, Blank(x), Hit(c, Blank(x)));
    GetKeeps(w, env, KeyOf(x));
    BlankMisses(c, x);
    MutationSettles(r, env.cfg, x, Blank(x), Hit(c, Blank(x)));
    CreatedAsSent(GetObj(w, env, KeyOf(x)).w, env, blank);
    SettledAsSent(r, env.cfg, x, blank, CreateObj(GetObj(w, env, KeyOf(x)).w, env, blank).res);
  }

  lemma BlankMisses(c: Versions, x: Obj)
    ensures !Hit(c, Blank(x))
  {
  }

  lemma SettledAsSent(r: Recipe, cfg: Config, x: Obj, sent: Obj, res: Result<Obj>)
    ensures res.Ok? && SameContent(res.value, sent) && InSync(r.update, cfg, x, sent) && CarriesMeta(x, sent)
        ==> InSync(r.update, cfg, x, res.value) && CarriesMeta(x, res.value)
  {
  }

  /** The mutation changes neither the version nor the identity of what was read. */
  lemma MutationKeepsSnapshot(w: World, r: Recipe, cfg: Config, x: Obj, found: Obj, hit: bool)
    requires Snapshot(w, found)
    ensures var next := Mutated(r, cfg, x, found, hit);
            Snapshot(w, next) && next.terminating == found.terminating && KeyOf(next) == KeyOf(found)
    ensures found.terminating ==> Mutated(r, cfg, x, found, hit) == found
  {
  }

  lemma EngineSettlesFound(w: World, env: Env, c: Versions, r: Recipe, x: Obj)
    requires Valid(w, env.home) && GetObj(w, env, KeyOf(x)).res.Ok?
    requires var got := GetObj(w, env, KeyOf(x));
             r.always || (Hit(c, got.res.value) ==> InSync(r.update, env.cfg, x, got.res.value))
    ensures var out := CreateOrUpdate(w, env, c, r, x); out.res.Ok? ==> Settled(r, env.cfg, x, out)
  {
    hide Evolves, UpdateObj, DeleteObject, GetObj, Mutated, Hit, InSync, CarriesMeta;
    var got := GetObj(w, env, KeyOf(x));
    var existing := got.res.value;
    var next := Mutated(r, env.cfg, x, existing, Hit(c, existing));
    GetKeeps(w, env, KeyOf(x));
    assert KeyOf(existing) == KeyOf(x) && Snapshot(got.w, existing);
    hide Valid, Snapshot;
    MutationKeepsSnapshot(got.w, r, env.cfg, x, existing, Hit(c, existing));
    if !existing.terminating {
      MutationSettles(r, env.cfg, x, existing, Hit(c, existing));
    }
    UpdatedAsSent(got.w, env, next);
    SettledAsSent(r, env.cfg, x, next, UpdateObj(got.w, env, next).res);
  }

  /** After the engine succeeded, the cluster is as expected at that key. */
  lemma EngineSettles(w: World, env: Env, c: Versions, r: Recipe, x: Obj)
    requires Valid(w, env.home) && Named(c) && Honest(w, c, r.update, env.cfg, x) && Suits(r.update, x.kind)
    ensures var out := CreateOrUpdate(w, env, c, r, x);
            Valid(out.w, env.home) && Evolves(w, out.w) && (out.res.Ok? ==> Settled(r, env.cfg, x, out))
  {
    hide GetObj, CreateOrUpdate, Honest, Evolves, InSync, Hit, Settled;
    var got := GetObj(w, env, KeyOf(x));
    EngineKeeps(w, env, c, r, x);
    if got.res.Err? {
      EngineSettlesNew(w, env, c, r, x);
    } else {
      HitAfterRead(w, env, c, r.update, x);
      EngineSettlesFound(w, env, c, r, x);
    }
  }

  // ---------- one list entry ----------

  /** Honesty for a list entry, as the next pass for this spec will prepare it. */
  ghost predicate EntryHonest(w: World, c: Versions, cfg: Config, ns: string, spec: Spec, e: Entry) {
    && WellKinded(e)
    && var p := Prepared(e.rule, cfg, ns, spec, e.obj);
       p.Some? ==> Honest(w, c, UpdateOf(e.rule), cfg, p.value)
  }

  ghost predicate AllHonest(w: World, c: Versions, cfg: Config, ns: string, spec: Spec, es: seq<Entry>) {
    Named(c) && forall e <- es :: EntryHonest(w, c, cfg, ns, spec, e)
  }

  function CacheKeyAt(k: Key): CacheKey {
    CacheKey(Some(k.kind), k.name, k.ns)
  }

  lemma RememberTouchesOne(c: Versions, found: Obj, op: OpResult)
    requires Named(c)
    ensures var c' := Remember(c, found, op);
            Named(c') && forall ck <- c' :: ck != CacheKeyAt(KeyOf(found)) ==> ck in c && c'[ck] == c[ck]
  {
  }

  /** What one built resource does to the cache: honest at its own key, silent about all others. */
  lemma BuildHonest(w: World, env: Env, c: Versions, inst: CR, rule: Rule, p: Obj)
    requires Valid(w, env.home) && Named(c) && p.kind == KindOf(rule)
    requires Honest(w, c, UpdateOf(rule), env.cfg, p)
    ensures var out := Build(w, env, c, inst, RecipeOf(rule, false), p);
            && Valid(out.w, env.home) && Evolves(w, out.w) && Named(out.versions)
            && Honest(out.w, out.versions, UpdateOf(rule), env.cfg, out.obj)
            && (forall ck <- out.versions :: ck != CacheKeyAt(KeyOf(p)) ==> ck in c && out.versions[ck] == c[ck])
  {
    hide CreateOrUpdate, Remember, Evolves, Valid, InSync, Named, Honest;
    var r := RecipeOf(rule, false);
    var m := MarkedFor(inst, r, p);
    HonestMarked(w, c, UpdateOf(rule), env.cfg, p, m.obj);
    if m.err.None? {
      EngineSettles(w, env, c, r, m.obj);
      var out := CreateOrUpdate(w, env, c, r, m.obj);
      EvolvesObjs(w, out.w);
      HonestEvolves(w, out.w, env.home, c, c, UpdateOf(rule), env.cfg, m.obj);
      if out.res.Ok? {
        RememberTouchesOne(c, out.found, out.res.value);
        RememberHonest(out.w, env.home, c, r, env.cfg, m.obj, out);
      }
    } else {
      EvolvesReflexive(w);
    }
  }

  lemma RememberHonest(w: World, home: Name, c: Versions, r: Recipe, cfg: Config, x: Obj, out: EngineOut)
    requires Valid(w, home) && out.w == w && out.res.Ok? && Settled(r, cfg, x, out)
    requires Honest(w, c, r.update, cfg, x) && Named(c)
    ensures Honest(w, Remember(c, out.found, out.res.value), r.update, cfg, x)
  {
    hide InSync, CarriesMeta;
    assert CacheKeyAt(KeyOf(x)) == CacheKey(Some(x.kind), x.name, x.ns);
    if out.found.typed {
      assert CacheKeyOf(out.found) == CacheKeyAt(KeyOf(x));
    } else {
      assert CacheKeyOf(out.found) !in c;
    }
  }

  /** One list entry: the cache stays honest about it, and nothing changes for entries of other identity. */
  lemma EntryKeepsHonest(w: World, env: Env, c: Versions, inst: CR, e: Entry)
    requires Valid(w, env.home) && Named(c)
    requires EntryHonest(w, c, env.cfg, inst.nn.ns, inst.spec, e)
    ensures var out := ReconcileEntry(w, env, c, inst, e, false);
            && Valid(out.w, env.home) && Evolves(w, out.w) && Named(out.versions)
            && EntryHonest(out.w, out.versions, env.cfg, inst.nn.ns, inst.spec, out.entries[0])
            && Identity(inst.nn.ns, out.entries[0]) == Identity(inst.nn.ns, e)
            && (forall ck <- out.versions :: ck != CacheKeyAt(TargetKey(inst.nn.ns, inst.spec, e)) ==>
                  ck in c && out.versions[ck] == c[ck])
  {
    hide Build, Honest, Valid, Evolves, Named;
    var p := Prepared(e.rule, env.cfg, inst.nn.ns, inst.spec, e.obj);
    if Skipped(e, inst.spec) || p.None? {
      EvolvesReflexive(w);
    } else {
      assert KeyOf(p.value) == TargetKey(inst.nn.ns, inst.spec, e);
      BuildHonest(w, env, c, inst, e.rule, p.value);
      BuiltAsExpected(w, env, c, inst, e, p.value);
      PreparedAgain(inst, env.cfg, e);
      hide Prepared;
    }
  }

  lemma BuiltAsExpected(w: World, env: Env, c: Versions, inst: CR, e: Entry, p: Obj)
    requires Prepared(e.rule, env.cfg, inst.nn.ns, inst.spec, e.obj) == Some(p)
    ensures Expected(inst, env.cfg, e) == Some(Build(w, env, c, inst, RecipeOf(e.rule, false), p).obj)
  {
    hide Prepared, CreateOrUpdate;
  }

  lemma OthersStayHonest(w: World, env: Env, c: Versions, inst: CR, e: Entry, d: Entry)
    requires Valid(w, env.home) && Named(c)
    requires EntryHonest(w, c, env.cfg, inst.nn.ns, inst.spec, e)
    requires EntryHonest(w, c, env.cfg, inst.nn.ns, inst.spec, d)
    requires Identity(inst.nn.ns, e) != Identity(inst.nn.ns, d)
    ensures var out := ReconcileEntry(w, env, c, inst, e, false);
            EntryHonest(out.w, out.versions, env.cfg, inst.nn.ns, inst.spec, d)
  {
    hide ReconcileEntry, Honest, Valid, Evolves, Named, TargetKey, Identity;
    EntryKeepsHonest(w, env, c, inst, e);
    var out := ReconcileEntry(w, env, c, inst, e, false);
    EvolvesObjs(w, out.w);
    IdentitiesSeparateKeys(inst.nn.ns, inst.spec, e, d);
    var p := Prepared(d.rule, env.cfg, inst.nn.ns, inst.spec, d.obj);
    if p.Some? {
      PreparedKey(env.cfg, inst.nn.ns, inst.spec, d);
      assert CacheKey(Some(p.value.kind), p.value.name, p.value.ns) == CacheKeyAt(TargetKey(inst.nn.ns, inst.spec, d));
      HonestEvolves(w, out.w, env.home, c, out.versions, UpdateOf(d.rule), env.cfg, p.value);
    }
  }

  lemma PreparedKey(cfg: Config, ns: string, spec: Spec, e: Entry)
    requires WellKinded(e)
    ensures var p := Prepared(e.rule, cfg, ns, spec, e.obj);
            p.Some? ==> KeyOf(p.value) == TargetKey(ns, spec, e) && Suits(UpdateOf(e.rule), p.value.kind)
  {
  }

  /** One list entry is treated the same with an honest cache and with AlwaysCallUpdateFunc. */
  lemma EntryRefines(w: World, env: Env, c: Versions, c': Versions, inst: CR, e: Entry)
    requires Valid(w, env.home) && Named(c)
    requires EntryHonest(w, c, env.cfg, inst.nn.ns, inst.spec, e)
    ensures ReconcileEntry(w, env, c, inst, e, false)
         == ReconcileEntry(w, env, c', inst, e, true).(versions := ReconcileEntry(w, env, c, inst, e, false).versions)
  {
    hide CreateOrUpdate, Honest, Valid, Named, Prepared, Remember, ResultOf, Skipped;
    var p := Prepared(e.rule, env.cfg, inst.nn.ns, inst.spec, e.obj);
    if !Skipped(e, inst.spec) && p.Some? {
      PreparedKey(env.cfg, inst.nn.ns, inst.spec, e);
      var r := RecipeOf(e.rule, false);
      var m := MarkedFor(inst, r, p.value);
      HonestMarked(w, c, UpdateOf(e.rule), env.cfg, p.value, m.obj);
      EngineRefines(w, env, c, c', r, m.obj);
    }
  }

  // ---------- a whole pass over the lists ----------

  /** Running over a list keeps the cache honest about all entries, and does the same in the same order as
      always calling the update functions. `before` are the entries already done. */
  lemma {:induction false} ListRefines(w: World, env: Env, c: Versions, c': Versions, inst: CR, before: seq<Entry>,
                                       es: seq<Entry>)
    requires Valid(w, env.home)
    requires AllHonest(w, c, env.cfg, inst.nn.ns, inst.spec, before + es)
    requires DistinctEntries(inst.nn.ns, before + es)
    ensures var out := ReconcileAll(w, env, c, inst, es, false);
            && out == ReconcileAll(w, env, c', inst, es, true).(versions := out.versions)
            && Valid(out.w, env.home) && Evolves(w, out.w)
            && AllHonest(out.w, out.versions, env.cfg, inst.nn.ns, inst.spec, before + out.entries)
            && DistinctEntries(inst.nn.ns, before + out.entries)
    decreases |es|
  {
    hide ReconcileEntry, EntryHonest, Valid, Evolves, Named, Identity;
    if es == [] {
      EvolvesReflexive(w);
    } else {
      var e := es[0];
      assert (before + es)[|before|] == e;
      var first := ReconcileEntry(w, env, c, inst, e, false);
      var first' := ReconcileEntry(w, env, c', inst, e, true);
      EntryRefines(w, env, c, c', inst, e);
      EntryKeepsHonest(w, env, c, inst, e);
      var mid := before + first.entries;
      assert first.entries == [first.entries[0]];
      StepKeepsAllHonest(w, env, c, inst, before, es);
      if first.err.None? {
        assert mid + es[1..] == before + (first.entries + es[1..]);
        ListRefines(first.w, env, first.versions, first'.versions, inst, mid, es[1..]);
        var rest := ReconcileAll(first.w, env, first.versions, inst, es[1..], false);
        EvolvesTransitive(w, first.w, rest.w, env.home);
        assert mid + rest.entries == before + (first.entries + rest.entries);
      }
    }
  }

  lemma StepKeepsAllHonest(w: World, env: Env, c: Versions, inst: CR, before: seq<Entry>, es: seq<Entry>)
    requires Valid(w, env.home) && es != []
    requires AllHonest(w, c, env.cfg, inst.nn.ns, inst.spec, before + es)
    requires DistinctEntries(inst.nn.ns, before + es)
    ensures var first := ReconcileEntry(w, env, c, inst, es[0], false);
            && AllHonest(first.w, first.versions, env.cfg, inst.nn.ns, inst.spec, before + (first.entries + es[1..]))
            && DistinctEntries(inst.nn.ns, before + (first.entries + es[1..]))
  {
    hide ReconcileEntry, EntryHonest, Valid, Evolves, Named, Identity;
    var first := ReconcileEntry(w, env, c, inst, es[0], false);
    var all, next := before + es, before + (first.entries + es[1..]);
    assert all[|before|] == es[0];
    EntryKeepsHonest(w, env, c, inst, es[0]);
    assert next == all[|before| := first.entries[0]];
    forall i | 0 <= i < |next|
      ensures EntryHonest(first.w, first.versions, env.cfg, inst.nn.ns, inst.spec, next[i])
    {
      if i != |before| {
        assert Identity(inst.nn.ns, all[i]) != Identity(inst.nn.ns, all[|before|]);
        OthersStayHonest(w, env, c, inst, es[0], all[i]);
      }
    }
  }

  // ---------- a whole pass of the controller ----------

  /** The operator's memory is honest about the cluster. */
  ghost predicate MemoryHonest(w: World, env: Env, m: Memory) {
    AllHonest(w, m.versions, env.cfg, env.home.ns, m.lastSpec, m.entries)
  }

  lemma AllHonestEvolves(w: World, w': World, home: Name, c: Versions, cfg: Config, ns: string, spec: Spec,
          es: seq<Entry>)
    requires Valid(w, home) && Valid(w', home) && ObjsEvolve(w, w')
    requires AllHonest(w, c, cfg, ns, spec, es)
    ensures AllHonest(w', c, cfg, ns, spec, es)
  {
    hide Valid, ObjsEvolve, Honest, Prepared, TargetKey;
    forall e <- es
      ensures EntryHonest(w', c, cfg, ns, spec, e)
    {
      assert EntryHonest(w, c, cfg, ns, spec, e);
      PreparedKey(cfg, ns, spec, e);
      var p := Prepared(e.rule, cfg, ns, spec, e.obj);
      if p.Some? {
        HonestEvolves(w, w', home, c, c, UpdateOf(e.rule), cfg, p.value);
      }
    }
  }

  /** An empty cache is honest. */
  lemma EmptyCacheHonest(w: World, cfg: Config, ns: string, spec: Spec, es: seq<Entry>)
    requires forall e <- es :: WellKinded(e)
    ensures AllHonest(w, map[], cfg, ns, spec, es)
  {
    hide Prepared;
  }

  ghost predicate MemoryOk(w: World, env: Env, m: Memory) {
    && Valid(w, env.home) && MemoryHonest(w, env, m) && DistinctEntries(env.home.ns, m.entries)
  }

  /** The memories of two operators that differ only in their caches. */
  predicate SameLists(m: Memory, m': Memory) {
    m.lastSpec == m'.lastSpec && m.entries == m'.entries
  }

  /** Two passes with the same outcome. */
  predicate SameOutcome(a: PassOut, b: PassOut) {
    a.w == b.w && a.verdict == b.verdict && a.results == b.results && SameLists(a.m, b.m)
  }

  lemma MemoryKept(w: World, w': World, env: Env, m: Memory)
    requires MemoryOk(w, env, m) && Kept(w, w', env.home)
    ensures MemoryOk(w', env, m)
  {
    hide Valid, ObjsEvolve, AllHonest, DistinctEntries;
    AllHonestEvolves(w, w', env.home, m.versions, env.cfg, env.home.ns, m.lastSpec, m.entries);
  }

  lemma MemoryEvolves(w: World, w': World, env: Env, m: Memory)
    requires MemoryOk(w, env, m) && Valid(w', env.home) && Evolves(w, w')
    ensures MemoryOk(w', env, m)
  {
    hide Valid, Evolves, MemoryOk;
    KeptEvolves(w, w', env.home);
    MemoryKept(w, w', env, m);
  }

  lemma MemoryClears(w: World, env: Env, m: Memory, spec: Spec)
    requires MemoryOk(w, env, m)
    ensures MemoryOk(w, env, ClearedIfNeeded(m, spec))
    ensures MemoryOk(w, env, Memory(map[], spec, m.entries))
  {
    hide Valid, DistinctEntries, Honest, Prepared;
    EmptyCacheHonest(w, env.cfg, env.home.ns, spec, m.entries);
  }

  /** The operand lists: same writes, same results, honest memory. */
  lemma OperandsRefine(w: World, env: Env, m: Memory, m': Memory, inst: CR)
    requires MemoryOk(w, env, m) && m.entries == m'.entries
    requires inst.nn == env.home && inst.spec == m.lastSpec
    ensures var out := ReconcileOperands(w, env, m, inst, false);
            && out == ReconcileOperands(w, env, m', inst, true).(versions := out.versions)
            && Valid(out.w, env.home) && Evolves(w, out.w)
            && MemoryOk(out.w, env, m.(versions := out.versions, entries := out.entries))
  {
    hide Valid, AllHonest, DistinctEntries, ReconcileAll, Evolves;
    if inst.spec.deploy {
      assert [] + m.entries == m.entries;
      ListRefines(w, env, m.versions, m'.versions, inst, [], m.entries);
      var out := ReconcileAll(w, env, m.versions, inst, m.entries, false);
      assert [] + out.entries == out.entries;
    } else {
      EvolvesReflexive(w);
    }
  }

  lemma DeployRefines(w: World, env: Env, m: Memory, m': Memory, inst: CR)
    requires MemoryOk(w, env, m) && SameLists(m, m')
    requires Copy(w, env.home, inst) && inst.spec == m.lastSpec
    ensures var out := Deploy(w, env, m, inst, false);
            SameOutcome(out, Deploy(w, env, m', inst, true)) && MemoryOk(out.w, env, out.m)
  {
    hide MemoryOk, Copy, Kept, StatusWrite, ErrorHandled, ReconcileOperands, PreStatus, Aggregated, Evolves, Valid;
    MemoryValid(w, env, m);
    var status := PreStatus(env.cfg, inst.status, inst.gen);
    StatusWriteKeeps(w, env, inst, status);
    var pre := StatusWrite(w, env, inst.(status := status));
    MemoryKept(w, pre.w, env, m);
    MemoryValid(pre.w, env, m);
    if pre.err.Some? {
      ErrorHandledKeeps(pre.w, env, pre.inst, pre.err);
      MemoryKept(pre.w, ErrorHandled(pre.w, env, pre.inst, pre.err).w, env, m);
    } else {
      CopyHome(pre.w, env.home, pre.inst);
      OperandsRefine(pre.w, env, m, m', pre.inst);
      var ops := ReconcileOperands(pre.w, env, m, pre.inst, false);
      var next := m.(versions := ops.versions, entries := ops.entries);
      CopyEvolves(pre.w, ops.w, env.home, pre.inst);
      if ops.err.Some? {
        ErrorHandledKeeps(ops.w, env, pre.inst, ops.err);
        MemoryKept(ops.w, ErrorHandled(ops.w, env, pre.inst, ops.err).w, env, next);
      } else {
        var done := Aggregated(env.cfg, pre.inst.status, pre.inst.gen, ops.results);
        StatusWriteKeeps(ops.w, env, pre.inst, done);
        var post := StatusWrite(ops.w, env, pre.inst.(status := done));
        MemoryKept(ops.w, post.w, env, next);
        MemoryValid(post.w, env, next);
        ErrorHandledKeeps(post.w, env, post.inst, post.err);
        MemoryKept(post.w, ErrorHandled(post.w, env, post.inst, post.err).w, env, next);
      }
    }
  }

  lemma MemoryValid(w: World, env: Env, m: Memory)
    requires MemoryOk(w, env, m)
    ensures Valid(w, env.home)
  {
  }

  lemma CopyHome(w: World, home: Name, inst: CR)
    requires Copy(w, home, inst)
    ensures inst.nn == home
  {
  }

  lemma ServeLiveRefines(w: World, env: Env, m: Memory, m': Memory, inst: CR)
    requires MemoryOk(w, env, m) && SameLists(m, m')
    requires Copy(w, env.home, inst) && inst.spec == m.lastSpec
    ensures var out := ServeLive(w, env, m, inst, false);
            SameOutcome(out, ServeLive(w, env, m', inst, true)) && MemoryOk(out.w, env, out.m)
  {
    hide MemoryOk, Copy, Kept, ListCrs, Deploy, StatusWrite, MultipleStatus, PausedStatus, Evolves, Valid;
    MemoryValid(w, env, m);
    ListEffect(w, env);
    var all := ListCrs(w, env);
    MemoryEvolves(w, all.w, env, m);
    CopyEvolves(w, all.w, env.home, inst);
    if all.res.Ok? {
      if all.res.value.1 > 1 {
        if all.res.value.0.Some? {
          var item := all.res.value.0.value;
          CopyOfStored(all.w, env.home);
          StatusWriteKeeps(all.w, env, item, MultipleStatus(item.status));
          MemoryKept(all.w, StatusWrite(all.w, env, item.(status := MultipleStatus(item.status))).w, env, m);
        }
      } else if IsPaused(inst) {
        StatusWriteKeeps(all.w, env, inst, PausedStatus(inst.status, inst.gen));
        MemoryKept(all.w, StatusWrite(all.w, env, inst.(status := PausedStatus(inst.status, inst.gen))).w, env, m);
      } else {
        DeployRefines(all.w, env, m, m', inst);
      }
    }
  }

  /** One pass: the cluster, the verdict, the results and the operand lists come out the same whether the
      version cache is used or every update function is called, and the memory stays honest. */
  lemma PassRefines(w: World, env: Env, m: Memory, m': Memory)
    requires MemoryOk(w, env, m) && SameLists(m, m')
    ensures var out := Pass(w, env, m, false);
            SameOutcome(out, Pass(w, env, m', true)) && MemoryOk(out.w, env, out.m)
  {
    hide MemoryOk, Copy, Kept, GetCr, ServeLive, Evolves, Valid, ErrorHandled, ResourceWrite, CleanupPass, Without;
    MemoryValid(w, env, m);
    ReadEffect(w, env);
    var got := GetCr(w, env);
    MemoryEvolves(w, got.w, env, m);
    if got.res.Ok? {
      var inst := got.res.value;
      MemoryClears(got.w, env, m, inst.spec);
      var next := ClearedIfNeeded(m, inst.spec);
      if !IsInitialized(inst) {
        WriteAndHandleKeeps(got.w, env, next, inst, AddFinalizer(inst, FINALIZER).finalizers);
      } else if NeedsMigration(inst) {
        WriteAndHandleKeeps(got.w, env, next, inst,
                            AddFinalizer(RemoveFinalizer(inst, OLD_FINALIZER), FINALIZER).finalizers);
      } else if inst.deleting {
        CleanupPassKeeps(got.w, env, inst, m.entries);
        MemoryKept(got.w, CleanupPass(got.w, env, inst, m.entries).w, env, next);
        MemoryClears(CleanupPass(got.w, env, inst, m.entries).w, env, next, EMPTY_SPEC);
      } else {
        ServeLiveRefines(got.w, env, next, ClearedIfNeeded(m', inst.spec), inst);
      }
    }
  }

  lemma WriteAndHandleKeeps(w: World, env: Env, m: Memory, inst: CR, finalizers: seq<string>)
    requires MemoryOk(w, env, m) && Copy(w, env.home, inst)
    ensures var out := ResourceWrite(w, env, inst.(finalizers := finalizers));
            MemoryOk(ErrorHandled(out.w, env, out.inst, out.err).w, env, m)
  {
    hide MemoryOk, Copy, Kept, ErrorHandled, ResourceWrite, Valid;
    MemoryValid(w, env, m);
    ResourceWriteKeeps(w, env, inst, finalizers);
    var out := ResourceWrite(w, env, inst.(finalizers := finalizers));
    MemoryKept(w, out.w, env, m);
    MemoryValid(out.w, env, m);
    ErrorHandledKeeps(out.w, env, out.inst, out.err);
    MemoryKept(out.w, ErrorHandled(out.w, env, out.inst, out.err).w, env, m);
  }

  /** The main theorem: over any run of passes and restarts, with any users and any faults in between and
      during the passes, the version cache changes nothing that can be observed. The only assumption is that
      the bundle's entries are distinct. */
  lemma {:induction false} CacheRefinesNoCache(w: World, env: Env, m: Memory, m': Memory, bundle: seq<Entry>,
                                               steps: seq<Event>)
    requires MemoryOk(w, env, m) && SameLists(m, m')
    requires DistinctEntries(env.home.ns, bundle) && forall e <- bundle :: WellKinded(e)
    ensures var out, out' := Run(w, env, m, bundle, steps, false), Run(w, env, m', bundle, steps, true);
            && out.w == out'.w && out.reports == out'.reports && SameLists(out.m, out'.m)
            && MemoryOk(out.w, env, out.m)
    decreases |steps|
  {
    hide Pass, MemoryOk, DistinctEntries;
    if steps != [] {
      if steps[0].Restart? {
        BootedOk(w, env, m, bundle);
        CacheRefinesNoCache(w, env, Booted(bundle), Booted(bundle), bundle, steps[1..]);
      } else {
        PassRefines(w, env, m, m');
        var out, out' := Pass(w, env, m, false), Pass(w, env, m', true);
        CacheRefinesNoCache(out.w, env, out.m, out'.m, bundle, steps[1..]);
      }
    }
  }

  /** A freshly started operator satisfies the theorem's assumption on the memory. */
  lemma BootedOk(w: World, env: Env, m: Memory, bundle: seq<Entry>)
    requires Valid(w, env.home) || MemoryOk(w, env, m)
    requires DistinctEntries(env.home.ns, bundle) && forall e <- bundle :: WellKinded(e)
    ensures MemoryOk(w, env, Booted(bundle))
  {
    hide DistinctEntries, Prepared;
    EmptyCacheHonest(w, env.cfg, env.home.ns, EMPTY_SPEC, bundle);
  }

  /** The same for an operator that has just started: its memory is honest by itself. */
  lemma CacheIsInvisible(w: World, env: Env, bundle: seq<Entry>, steps: seq<Event>)
    requires Valid(w, env.home)
    requires DistinctEntries(env.home.ns, bundle) && forall e <- bundle :: WellKinded(e)
    ensures var out, out' := Run(w, env, Booted(bundle), bundle, steps, false), Run(w, env, Booted(bundle), bundle,
        steps, true);
            && out.w == out'.w && out.reports == out'.reports && out.m.entries == out'.m.entries
            && MemoryOk(out.w, env, out.m)
  {
    hide Run, Valid, MemoryOk, DistinctEntries;
    BootedOk(w, env, Booted(bundle), bundle);
    CacheRefinesNoCache(w, env, Booted(bundle), Booted(bundle), bundle, steps);
  }
}

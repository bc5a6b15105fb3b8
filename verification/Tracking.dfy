/** What the operator's copy of the CR is worth while others write: the optimistic-concurrency facts that
    every lifecycle property rests on. */
module Tracking {
  import opened Kube
  import opened ApiServer
  import opened Labels
  import opened Cache
  import opened Resource
  import opened Operands
  import opened StatusReport
  import opened Controller

  /** All of the CR that neither a status write nor a finalizer write touches. */
  predicate SameMeta(a: CR, b: CR) {
    && a.nn == b.nn && a.uid == b.uid && a.gen == b.gen && a.labels == b.labels
    && a.annotations == b.annotations && a.deleting == b.deleting && a.spec == b.spec
  }

  /** A copy of the CR: as long as the stored one has the same resource version, it is the same. */
  ghost predicate Copy(w: World, home: Name, inst: CR) {
    && inst.nn == home && 0 < inst.rv < w.rv && inst.uid < w.uid
    && (w.cr.Some? && w.cr.value.rv == inst.rv ==> SameMeta(w.cr.value, inst))
  }

  lemma CopyEvolves(w: World, w': World, home: Name, inst: CR)
    requires Valid(w, home) && Copy(w, home, inst) && Evolves(w, w')
    ensures Copy(w', home, inst)
  {
  }

  /** A status write, seen from the moment it is served: nothing, or exactly the new status. */
  lemma StatusWriteEffect(w: World, env: Env, inst: CR)
    requires Valid(w, env.home) && Copy(w, env.home, inst)
    ensures var out, w1 := StatusWrite(w, env, inst), Begin(w, env);
            && Valid(out.w, env.home) && ObjsEvolve(w, out.w) && Copy(out.w, env.home, out.inst)
            && SameMeta(out.inst, inst) && out.w.calls == w.calls + 1
            && (out.err.Some? ==> out.inst == inst)
            && (out.err.None? ==> out.w.cr == Some(out.inst) && out.inst.status == inst.status)
            && (out.w == w1 || (w1.cr.Some? && w1.cr.value.rv == inst.rv && out.w == StatusReplaced(w1, inst.status)))
            && (out.err.None? ==> w1.cr.Some? && w1.cr.value.rv == inst.rv && out.w == StatusReplaced(w1, inst.status))
  {
    hide Begin;
    BeginKeeps(w, env);
    CopyEvolves(w, Begin(w, env), env.home, inst);
  }

  lemma ReplacedEffect(w: World, home: Name, inst: CR)
    requires Valid(w, home) && Copy(w, home, inst) && w.cr.Some? && w.cr.value.rv == inst.rv
    ensures var w' := CrReplaced(w, inst);
            && Valid(w', home) && w'.objs == w.objs && w.rv <= w'.rv && w.uid == w'.uid && w'.calls == w.calls
            && Copy(w', home, inst) && (w'.cr.Some? ==> Copy(w', home, w'.cr.value) && SameMeta(w'.cr.value, inst)
                                                        && w'.cr.value.finalizers == inst.finalizers)
  {
  }

  /** A metadata write, seen from the moment it is served: nothing, or exactly the new metadata. */
  lemma MetaWriteEffect(w: World, env: Env, inst: CR)
    requires Valid(w, env.home) && Copy(w, env.home, inst)
    ensures var out, w1 := MetaWrite(w, env, inst), Begin(w, env);
            && Valid(out.w, env.home) && ObjsEvolve(w, out.w) && Copy(out.w, env.home, out.inst)
            && SameMeta(out.inst, inst) && out.w.calls == w.calls + 1
            && (out.err.Some? ==> out.inst == inst)
            && (out.err.None? ==> out.w.cr.None? || out.w.cr == Some(out.inst))
            && (out.w == w1 || (w1.cr.Some? && w1.cr.value.rv == inst.rv && out.w == CrReplaced(w1, inst)))
            && (out.err.None? ==> w1.cr.Some? && w1.cr.value.rv == inst.rv && out.w == CrReplaced(w1, inst)
                                  && out.inst.finalizers == inst.finalizers)
  {
    hide Begin, Valid, CrReplaced;
    var w1 := Begin(w, env);
    BeginKeeps(w, env);
    CopyEvolves(w, w1, env.home, inst);
    if w1.cr.Some? && w1.cr.value.rv == inst.rv {
      ReplacedEffect(w1, env.home, inst);
    }
  }

  lemma ReadEffect(w: World, env: Env)
    requires Valid(w, env.home)
    ensures var got := GetCr(w, env);
            && Valid(got.w, env.home) && Evolves(w, got.w) && got.w.calls == w.calls + 1 && got.w.audit == w.audit
            && (got.res.Ok? ==> got.w.cr == Some(got.res.value) && Copy(got.w, env.home, got.res.value))
  {
    BeginKeeps(w, env);
  }

  lemma ListEffect(w: World, env: Env)
    requires Valid(w, env.home)
    ensures var all := ListCrs(w, env);
            && Valid(all.w, env.home) && Evolves(w, all.w) && all.w.calls == w.calls + 1 && all.w.audit == w.audit
            && (all.res.Ok? ==> all.res.value.0 == all.w.cr)
  {
    BeginKeeps(w, env);
  }

  // ---------- every stage of a pass leaves a valid cluster in which objects have only evolved ----------

  ghost predicate Kept(w: World, w': World, home: Name) {
    Valid(w', home) && ObjsEvolve(w, w')
  }

  lemma KeptTransitive(w: World, w1: World, w2: World, home: Name)
    requires Valid(w, home) && Kept(w, w1, home) && Kept(w1, w2, home)
    ensures Kept(w, w2, home)
  {
    forall k <- w2.objs
      ensures ObjFrom(w, k, w2.objs[k])
    {
      assert ObjFrom(w1, k, w2.objs[k]);
    }
  }

  lemma StatusWriteKeeps(w: World, env: Env, inst: CR, status: Status)
    requires Valid(w, env.home) && Copy(w, env.home, inst)
    ensures var out := StatusWrite(w, env, inst.(status := status));
            Kept(w, out.w, env.home) && Copy(out.w, env.home, out.inst) && SameMeta(out.inst, inst)
  {
    hide StatusWrite, Valid;
    StatusWriteEffect(w, env, inst.(status := status));
  }

  lemma MetaWriteKeeps(w: World, env: Env, inst: CR, finalizers: seq<string>)
    requires Valid(w, env.home) && Copy(w, env.home, inst)
    ensures var out := MetaWrite(w, env, inst.(finalizers := finalizers));
            Kept(w, out.w, env.home) && Copy(out.w, env.home, out.inst) && SameMeta(out.inst, inst)
  {
    hide MetaWrite, Valid;
    MetaWriteEffect(w, env, inst.(finalizers := finalizers));
  }

  lemma ResourceWriteKeeps(w: World, env: Env, inst: CR, finalizers: seq<string>)
    requires Valid(w, env.home) && Copy(w, env.home, inst)
    ensures var out := ResourceWrite(w, env, inst.(finalizers := finalizers));
            Kept(w, out.w, env.home) && Copy(out.w, env.home, out.inst)
  {
    hide MetaWrite, StatusWrite, Copy, Kept, SameMeta;
    MetaWriteKeeps(w, env, inst, finalizers);
    var meta := MetaWrite(w, env, inst.(finalizers := finalizers));
    if meta.err.None? {
      assert Valid(meta.w, env.home) by { KeptValid(w, meta.w, env.home); }
      var status := DeployingStatus(meta.inst.status, meta.inst.gen);
      StatusWriteKeeps(meta.w, env, meta.inst, status);
      KeptTransitive(w, meta.w, StatusWrite(meta.w, env, meta.inst.(status := status)).w, env.home);
    }
    hide Valid;
  }

  lemma KeptValid(w: World, w': World, home: Name)
    requires Kept(w, w', home)
    ensures Valid(w', home) && ObjsEvolve(w, w')
  {
  }

  lemma KeptEvolves(w: World, w': World, home: Name)
    requires Valid(w', home) && Evolves(w, w')
    ensures Kept(w, w', home)
  {
  }

  lemma ErrorHandledKeeps(w: World, env: Env, inst: CR, err: Option<Error>)
    requires Valid(w, env.home) && Copy(w, env.home, inst)
    ensures Kept(w, ErrorHandled(w, env, inst, err).w, env.home)
  {
    hide StatusWrite, Copy, ErrorStatus, Valid;
    if err.Some? && err.value != Conflict {
      StatusWriteKeeps(w, env, inst, ErrorStatus(inst.status, err.value));
    } else {
      EvolvesReflexive(w);
      KeptEvolves(w, w, env.home);
    }
  }

  // ---------- reconciling the operands writes no CR ----------

  lemma EngineKeeps(w: World, env: Env, c: Versions, r: Recipe, x: Obj)
    requires Valid(w, env.home)
    ensures var out := CreateOrUpdate(w, env, c, r, x); Valid(out.w, env.home) && Evolves(w, out.w)
  {
    hide Evolves, Valid, UpdateObj, DeleteObject, CreateObj, GetObj, Mutated, Hit, Blank;
    var got := GetObj(w, env, KeyOf(x));
    GetKeeps(w, env, KeyOf(x));
    if got.res.Err? {
      var made := Mutated(r, env.cfg, x, Blank(x), Hit(c, Blank(x)));
      CreateKeeps(got.w, env, made);
      EvolvesTransitive(w, got.w, CreateObj(got.w, env, made).w, env.home);
    } else {
      var next := Mutated(r, env.cfg, x, got.res.value, Hit(c, got.res.value));
      UpdateKeeps(got.w, env, next);
      DeleteKeeps(got.w, env, KeyOf(next));
      EvolvesTransitive(w, got.w, UpdateObj(got.w, env, next).w, env.home);
      EvolvesTransitive(w, got.w, DeleteObject(got.w, env, KeyOf(next)).w, env.home);
    }
  }

  lemma EntryKeeps(w: World, env: Env, c: Versions, inst: CR, e: Entry, always: bool)
    requires Valid(w, env.home)
    ensures var out := ReconcileEntry(w, env, c, inst, e, always);
            Valid(out.w, env.home) && Evolves(w, out.w) && w.calls <= out.w.calls
  {
    hide CreateOrUpdate, Valid, Prepared, Remember, MarkedFor, ObjsEvolve, CrEvolves;
    EvolvesReflexive(w);
    var p := Prepared(e.rule, env.cfg, inst.nn.ns, inst.spec, e.obj);
    if p.Some? {
      var r := RecipeOf(e.rule, always);
      EngineKeeps(w, env, c, r, MarkedFor(inst, r, p.value).obj);
    }
  }

  lemma {:induction false} ListKeepsAll(w: World, env: Env, c: Versions, inst: CR, es: seq<Entry>, always: bool)
    requires Valid(w, env.home)
    ensures var out := ReconcileAll(w, env, c, inst, es, always);
            Valid(out.w, env.home) && Evolves(w, out.w)
    decreases |es|
  {
    hide ReconcileEntry, Valid, Evolves;
    if es == [] {
      EvolvesReflexive(w);
    } else {
      var first := ReconcileEntry(w, env, c, inst, es[0], always);
      EntryKeeps(w, env, c, inst, es[0], always);
      if first.err.None? {
        ListKeepsAll(first.w, env, first.versions, inst, es[1..], always);
        EvolvesTransitive(w, first.w, ReconcileAll(first.w, env, first.versions, inst, es[1..], always).w, env.home);
      }
    }
  }

  lemma OperandsKeep(w: World, env: Env, m: Memory, inst: CR, always: bool)
    requires Valid(w, env.home)
    ensures var out := ReconcileOperands(w, env, m, inst, always);
            Valid(out.w, env.home) && Evolves(w, out.w)
  {
    hide ReconcileAll, Valid, Evolves;
    EvolvesReflexive(w);
    ListKeepsAll(w, env, m.versions, inst, m.entries, always);
  }

  // ---------- cleaning up writes no CR ----------

  lemma CleanedKeeps(w: World, env: Env, inst: CR, x: Obj)
    requires Valid(w, env.home)
    ensures var out := Cleaned(w, env, inst, x); Valid(out.w, env.home) && Evolves(w, out.w)
  {
    hide GetObj, DeleteObject, Valid, Evolves;
    GetKeeps(w, env, KeyOf(x));
    var got := GetObj(w, env, KeyOf(x));
    if got.res.Ok? {
      DeleteKeeps(got.w, env, KeyOf(got.res.value));
      EvolvesTransitive(w, got.w, DeleteObject(got.w, env, KeyOf(got.res.value)).w, env.home);
    }
  }

  lemma {:induction false} CleanedAllKeeps(w: World, env: Env, inst: CR, xs: seq<Obj>)
    requires Valid(w, env.home)
    ensures var out := CleanedAll(w, env, inst, xs); Valid(out.w, env.home) && Evolves(w, out.w)
    decreases |xs|
  {
    hide Cleaned, Valid, Evolves;
    if xs == [] {
      EvolvesReflexive(w);
    } else {
      var first := Cleaned(w, env, inst, xs[0]);
      CleanedKeeps(w, env, inst, xs[0]);
      if first.res.Ok? {
        CleanedAllKeeps(first.w, env, inst, xs[1..]);
        EvolvesTransitive(w, first.w, CleanedAll(first.w, env, inst, xs[1..]).w, env.home);
      }
    }
  }

  lemma TeardownKeeps(w: World, env: Env, inst: CR, entries: seq<Entry>)
    requires Valid(w, env.home)
    ensures var out := Teardown(w, env, inst, entries); Valid(out.w, env.home) && Evolves(w, out.w)
  {
    hide ListObjs, CleanedAll, Valid, Evolves, TasksListed, PipelinesListed;
    var found := ListObjs(w, env, ClusterTask, MANAGED_BY_LABEL, MANAGED_BY_VALUE);
    ListKeeps(w, env, ClusterTask, MANAGED_BY_LABEL, MANAGED_BY_VALUE);
    if found.res.Ok? {
      CleanedAllKeeps(found.w, env, inst, TasksListed(entries) + found.res.value);
      var tasks := CleanedAll(found.w, env, inst, TasksListed(entries) + found.res.value);
      EvolvesTransitive(w, found.w, tasks.w, env.home);
      CleanedAllKeeps(tasks.w, env, inst, PipelinesListed(entries));
      EvolvesTransitive(w, tasks.w, CleanedAll(tasks.w, env, inst, PipelinesListed(entries)).w, env.home);
    }
  }

  lemma MarkDeletedKeeps(w: World, env: Env, inst: CR)
    requires Valid(w, env.home) && Copy(w, env.home, inst)
    ensures Kept(w, MarkDeleted(w, env, inst).w, env.home)
  {
    hide StatusWrite, Copy, Valid, Kept;
    StatusWriteKeeps(w, env, inst, DeletedStatus(inst.status, inst.gen));
  }

  lemma CleanupPassKeeps(w: World, env: Env, inst: CR, entries: seq<Entry>)
    requires Valid(w, env.home) && Copy(w, env.home, inst)
    ensures Kept(w, CleanupPass(w, env, inst, entries).w, env.home)
  {
    hide StatusWrite, MetaWrite, MarkDeleted, Teardown, Copy, Valid, Kept, SameMeta, DeletingStatus, HasOurs;
    if !HasOurs(inst) {
      MarkDeletedKeeps(w, env, inst);
    } else {
      StatusWriteKeeps(w, env, inst, DeletingStatus(inst.status, inst.gen));
      var mark := StatusWrite(w, env, inst.(status := DeletingStatus(inst.status, inst.gen)));
      if mark.err.None? {
        KeptValid(w, mark.w, env.home);
        TeardownKeeps(mark.w, env, mark.inst, entries);
        var down := Teardown(mark.w, env, mark.inst, entries);
        KeptEvolves(mark.w, down.w, env.home);
        KeptTransitive(w, mark.w, down.w, env.home);
        if down.res.Ok? && down.res.value == 0 {
          CopyEvolves(mark.w, down.w, env.home, mark.inst);
          var fs := Released(mark.inst).finalizers;
          assert Released(mark.inst) == mark.inst.(finalizers := fs);
          MetaWriteKeeps(down.w, env, mark.inst, fs);
          var freed := MetaWrite(down.w, env, Released(mark.inst));
          KeptTransitive(w, down.w, freed.w, env.home);
          if freed.err.None? {
            KeptValid(down.w, freed.w, env.home);
            MarkDeletedKeeps(freed.w, env, freed.inst);
            KeptTransitive(w, freed.w, MarkDeleted(freed.w, env, freed.inst).w, env.home);
          }
        }
      }
    }
  }

  // ---------- a whole pass ----------

  lemma CopyOfStored(w: World, home: Name)
    requires Valid(w, home) && w.cr.Some?
    ensures Copy(w, home, w.cr.value)
  {
  }

  lemma WriteAndHandleKept(w: World, env: Env, inst: CR, finalizers: seq<string>)
    requires Valid(w, env.home) && Copy(w, env.home, inst)
    ensures var out := ResourceWrite(w, env, inst.(finalizers := finalizers));
            Kept(w, ErrorHandled(out.w, env, out.inst, out.err).w, env.home)
  {
    hide Copy, Kept, ErrorHandled, ResourceWrite, Valid;
    ResourceWriteKeeps(w, env, inst, finalizers);
    var out := ResourceWrite(w, env, inst.(finalizers := finalizers));
    KeptValid(w, out.w, env.home);
    ErrorHandledKeeps(out.w, env, out.inst, out.err);
    KeptTransitive(w, out.w, ErrorHandled(out.w, env, out.inst, out.err).w, env.home);
  }

  lemma DeployKept(w: World, env: Env, m: Memory, inst: CR, always: bool)
    requires Valid(w, env.home) && Copy(w, env.home, inst)
    ensures Kept(w, Deploy(w, env, m, inst, always).w, env.home)
  {
    hide Copy, Kept, StatusWrite, ErrorHandled, ReconcileOperands, PreStatus, Aggregated, Evolves, Valid;
    var s := PreStatus(env.cfg, inst.status, inst.gen);
    StatusWriteKeeps(w, env, inst, s);
    var pre := StatusWrite(w, env, inst.(status := s));
    KeptValid(w, pre.w, env.home);
    ErrorHandledKeeps(pre.w, env, pre.inst, pre.err);
    KeptTransitive(w, pre.w, ErrorHandled(pre.w, env, pre.inst, pre.err).w, env.home);
    OperandsKeep(pre.w, env, m, pre.inst, always);
    var ops := ReconcileOperands(pre.w, env, m, pre.inst, always);
    KeptEvolves(pre.w, ops.w, env.home);
    KeptTransitive(w, pre.w, ops.w, env.home);
    CopyEvolves(pre.w, ops.w, env.home, pre.inst);
    ErrorHandledKeeps(ops.w, env, pre.inst, ops.err);
    KeptTransitive(w, ops.w, ErrorHandled(ops.w, env, pre.inst, ops.err).w, env.home);
    var done := Aggregated(env.cfg, pre.inst.status, pre.inst.gen, ops.results);
    StatusWriteKeeps(ops.w, env, pre.inst, done);
    var post := StatusWrite(ops.w, env, pre.inst.(status := done));
    KeptValid(ops.w, post.w, env.home);
    KeptTransitive(w, ops.w, post.w, env.home);
    ErrorHandledKeeps(post.w, env, post.inst, post.err);
    KeptTransitive(w, post.w, ErrorHandled(post.w, env, post.inst, post.err).w, env.home);
  }

  lemma ServeLiveKept(w: World, env: Env, m: Memory, inst: CR, always: bool)
    requires Valid(w, env.home) && Copy(w, env.home, inst)
    ensures Kept(w, ServeLive(w, env, m, inst, always).w, env.home)
  {
    hide Copy, Kept, ListCrs, Deploy, StatusWrite, MultipleStatus, PausedStatus, Evolves, Valid, IsPaused;
    ListEffect(w, env);
    var all := ListCrs(w, env);
    KeptEvolves(w, all.w, env.home);
    CopyEvolves(w, all.w, env.home, inst);
    if all.res.Ok? {
      if all.res.value.1 > 1 {
        if all.res.value.0.Some? {
          var item := all.res.value.0.value;
          CopyOfStored(all.w, env.home);
          StatusWriteKeeps(all.w, env, item, MultipleStatus(item.status));
          KeptTransitive(w, all.w, StatusWrite(all.w, env, item.(status := MultipleStatus(item.status))).w, env.home);
        }
      } else if IsPaused(inst) {
        StatusWriteKeeps(all.w, env, inst, PausedStatus(inst.status, inst.gen));
        KeptTransitive(w, all.w, StatusWrite(all.w, env, inst.(status := PausedStatus(inst.status, inst.gen))).w,
                       env.home);
      } else {
        DeployKept(all.w, env, m, inst, always);
        KeptTransitive(w, all.w, Deploy(all.w, env, m, inst, always).w, env.home);
      }
    }
  }

  /** A pass leaves a valid cluster in which objects have only evolved. */
  lemma PassKept(w: World, env: Env, m: Memory, always: bool)
    requires Valid(w, env.home)
    ensures Kept(w, Pass(w, env, m, always).w, env.home)
  {
    hide Copy, Kept, GetCr, ServeLive, Evolves, Valid, ErrorHandled, ResourceWrite, CleanupPass, Without;
    ReadEffect(w, env);
    var got := GetCr(w, env);
    KeptEvolves(w, got.w, env.home);
    if got.res.Ok? {
      var inst := got.res.value;
      if !IsInitialized(inst) {
        WriteAndHandleKept(got.w, env, inst, AddFinalizer(inst, FINALIZER).finalizers);
      } else if NeedsMigration(inst) {
        WriteAndHandleKept(got.w, env, inst, AddFinalizer(RemoveFinalizer(inst, OLD_FINALIZER), FINALIZER).finalizers);
      } else if inst.deleting {
        CleanupPassKeeps(got.w, env, inst, m.entries);
      } else {
        ServeLiveKept(got.w, env, ClearedIfNeeded(m, inst.spec), inst, always);
      }
      KeptTransitive(w, got.w, Pass(w, env, m, always).w, env.home);
    }
  }
}

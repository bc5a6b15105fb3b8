/** The life of the CR over whole runs: what its status may say, how its observed generation moves, and
    which finalizer holds it while operand objects exist. */
module Lifecycle {
  import opened Kube
  import opened ApiServer
  import opened Labels
  import opened Cache
  import opened Resource
  import opened Operands
  import opened StatusReport
  import opened Controller
  import opened Tracking
  import opened CacheRefinement
  import opened Convergence
  import opened Cleaning
  import opened Ownership
  import opened Runs

  // ---------- what is kept ----------

  /** Which of the two conditional properties are followed: `lone` for runs without the multiple-CR step,
      `guarded` for runs in which the first finalizer write is never turned away for another reason than a
      conflict. */
  datatype Mode = Mode(lone: bool, guarded: bool)

  /** A status that may be written over the status of a stored CR. */
  ghost predicate StatusFits(mode: Mode, c: CR, s: Status) {
    && UniqueTypes(s.conditions)
    && (mode.lone ==> Coherent(s))
    && c.status.observedGeneration <= s.observedGeneration <= c.gen
    && (mode.guarded && s.phase != Empty ==> HasOurs(c) || c.deleting)
  }

  ghost predicate CrGood(mode: Mode, c: CR) {
    StatusFits(mode, c, c.status)
  }

  /** The operator has written an operand object, and has not given the CR up since. */
  predicate Owes(audit: seq<Write>) {
    if audit == [] then false
    else
      var before := audit[..|audit| - 1];
      match audit[|audit| - 1]
      case ObjCreated(_, _) => true
      case ObjUpdated(_, _) => true
      case ObjDeleted(_, _) => Owes(before)
      case CrStatus(_, _) => Owes(before)
      case CrWritten(_, after) => after.Some? && HasOurs(after.value) && Owes(before)
  }

  /** What is true of every single write: a status write fits the CR it hits and changes nothing else, a
      metadata write leaves the status alone and releases only a CR that is being deleted, and an operand
      object is written only while the CR carries a finalizer. */
  ghost predicate EventFits(mode: Mode, e: Write) {
    match e
    case CrStatus(before, after) =>
      && after.Some? && after.value == before.(status := after.value.status, rv := after.value.rv)
      && StatusFits(mode, before, after.value.status)
    case CrWritten(before, after) =>
      && (after.Some? ==> after.value.status == before.status && after.value.gen == before.gen)
      && (HasOurs(before) && (after.Some? ==> !HasOurs(after.value)) ==> before.deleting)
    case ObjCreated(_, holder) => mode.guarded ==> holder.Some? && HasOurs(holder.value)
    case ObjUpdated(_, holder) => mode.guarded ==> holder.Some? && HasOurs(holder.value)
    case ObjDeleted(_, _) => true
  }

  ghost predicate History(mode: Mode, audit: seq<Write>) {
    forall e <- audit :: EventFits(mode, e)
  }

  ghost predicate Held(mode: Mode, w: World) {
    mode.guarded ==> w.cr.Some? && HasOurs(w.cr.value)
  }

  /** The invariant of all runs. */
  ghost predicate Good(mode: Mode, w: World) {
    && (w.cr.Some? ==> CrGood(mode, w.cr.value))
    && History(mode, w.audit)
    && (Owes(w.audit) ==> Held(mode, w))
  }

  /** Time goes on: a CR that is still the same one has not lost a generation, seen or observed. */
  ghost predicate Forward(w: World, w': World) {
    && w.uid <= w'.uid
    && (w'.cr.Some? ==>
          var c' := w'.cr.value;
          || c'.uid >= w.uid
          || (&& w.cr.Some? && w.cr.value.uid == c'.uid && w.cr.value.gen <= c'.gen
              && w.cr.value.status.observedGeneration <= c'.status.observedGeneration))
  }

  ghost predicate Advances(mode: Mode, w: World, w': World, home: Name) {
    Valid(w', home) && Good(mode, w') && Forward(w, w')
  }

  lemma AdvancesTransitive(mode: Mode, w: World, w1: World, w2: World, home: Name)
    requires Valid(w, home) && Advances(mode, w, w1, home) && Advances(mode, w1, w2, home)
    ensures Advances(mode, w, w2, home)
  {
    hide Good;
  }

  lemma OwesAppend(audit: seq<Write>, e: Write)
    ensures Owes(audit + [e])
         == match e
            case ObjCreated(_, _) => true
            case ObjUpdated(_, _) => true
            case CrWritten(_, after) => after.Some? && HasOurs(after.value) && Owes(audit)
            case _ => Owes(audit)
  {
    assert (audit + [e])[..|audit|] == audit;
  }

  // ---------- what users can do ----------

  lemma EvolvesAdvances(mode: Mode, w: World, w': World, home: Name)
    requires Valid(w, home) && Good(mode, w) && Valid(w', home) && Evolves(w, w') && History(mode, w'.audit)
    requires w'.audit == w.audit || Held(mode, w)
    ensures Advances(mode, w, w', home)
    ensures Held(mode, w) ==> Held(mode, w')
  {
    hide ObjsEvolve, CrTrace, History;
    HeldStays(mode, w, w', home);
    if w'.cr.Some? && !(w.cr.Some? && CrLater(w.cr.value, w'.cr.value, w.rv)) {
      assert NewCr(w'.cr.value);
    }
  }

  /** A finalizer holds the CR: users neither take it off nor make the CR vanish. */
  lemma HeldStays(mode: Mode, w: World, w': World, home: Name)
    requires Valid(w, home) && Evolves(w, w')
    ensures Held(mode, w) ==> Held(mode, w')
  {
    hide ObjsEvolve, CrTrace;
  }

  lemma BeginAdvances(mode: Mode, w: World, env: Env)
    requires Valid(w, env.home) && Good(mode, w)
    ensures Advances(mode, w, Begin(w, env), env.home) && Evolves(w, Begin(w, env))
  {
    hide Good, Valid, Evolves, Begin, Advances;
    BeginKeeps(w, env);
    assert History(mode, Begin(w, env).audit) by { GoodHistory(mode, w); }
    EvolvesAdvances(mode, w, Begin(w, env), env.home);
  }

  lemma GoodHistory(mode: Mode, w: World)
    requires Good(mode, w)
    ensures History(mode, w.audit)
  {
  }

  // ---------- the copy of the CR that a pass works on ----------

  /** The status in the copy may be written as long as the stored CR has the copy's version. */
  ghost predicate Fits(mode: Mode, w: World, inst: CR) {
    w.cr.Some? && w.cr.value.rv == inst.rv ==> StatusFits(mode, w.cr.value, inst.status)
  }

  /** The copy is exact as long as the stored CR has its version. */
  predicate Mirror(w: World, inst: CR) {
    w.cr.Some? && w.cr.value.rv == inst.rv ==> w.cr.value == inst
  }

  lemma VersionPins(w: World, w': World, home: Name, inst: CR)
    requires Valid(w, home) && Evolves(w, w') && inst.rv < w.rv
    requires w'.cr.Some? && w'.cr.value.rv == inst.rv
    ensures w.cr == w'.cr
  {
    hide ObjsEvolve, CrTrace;
  }

  lemma MirrorEvolves(w: World, w': World, home: Name, inst: CR)
    requires Valid(w, home) && Copy(w, home, inst) && Mirror(w, inst) && Evolves(w, w')
    ensures Mirror(w', inst)
  {
    hide Evolves, Valid;
    if w'.cr.Some? && w'.cr.value.rv == inst.rv {
      VersionPins(w, w', home, inst);
    }
  }

  lemma FitsEvolves(mode: Mode, w: World, w': World, home: Name, inst: CR)
    requires Valid(w, home) && Copy(w, home, inst) && Fits(mode, w, inst) && Evolves(w, w')
    ensures Fits(mode, w', inst)
  {
    hide Evolves, Valid, StatusFits;
    if w'.cr.Some? && w'.cr.value.rv == inst.rv {
      VersionPins(w, w', home, inst);
    }
  }

  // ---------- single writes of the CR ----------

  lemma StatusReplacedAdvances(mode: Mode, w: World, home: Name, s: Status)
    requires Valid(w, home) && Good(mode, w) && w.cr.Some? && StatusFits(mode, w.cr.value, s)
    ensures Advances(mode, w, StatusReplaced(w, s), home)
  {
    hide Coherent, UniqueTypes, Owes;
    var w' := StatusReplaced(w, s);
    if w' != w {
      OwesAppend(w.audit, w'.audit[|w.audit|]);
      assert w'.audit == w.audit + [w'.audit[|w.audit|]];
    }
  }

  lemma CrReplacedAdvances(mode: Mode, w: World, home: Name, inst: CR)
    requires Valid(w, home) && Good(mode, w) && w.cr.Some? && SameMeta(w.cr.value, inst)
    requires HasOurs(inst) || inst.deleting
    ensures Advances(mode, w, CrReplaced(w, inst), home)
  {
    hide Coherent, UniqueTypes, Owes;
    var w' := CrReplaced(w, inst);
    if w' != w {
      OwesAppend(w.audit, w'.audit[|w.audit|]);
      assert w'.audit == w.audit + [w'.audit[|w.audit|]];
    }
  }

  lemma StatusWriteAdvances(mode: Mode, w: World, env: Env, inst: CR, s: Status)
    requires Valid(w, env.home) && Good(mode, w) && Copy(w, env.home, inst) && Fits(mode, w, inst.(status := s))
    ensures var out := StatusWrite(w, env, inst.(status := s));
            && Advances(mode, w, out.w, env.home) && Copy(out.w, env.home, out.inst) && SameMeta(out.inst, inst)
            && Fits(mode, out.w, out.inst) && out.inst.status == s
            && (out.err.None? ==> out.w.cr == Some(out.inst))
            && (out.err.None? && Mirror(w, inst) ==> out.inst == inst.(status := s, rv := out.inst.rv))
  {
    hide StatusWrite, Begin, Good, StatusFits, Evolves, Advances, Valid;
    var next, w1 := inst.(status := s), Begin(w, env);
    StatusWriteEffect(w, env, next);
    BeginAdvances(mode, w, env);
    AdvancesParts(mode, w, w1, env.home);
    FitsEvolves(mode, w, w1, env.home, next);
    MirrorAfter(w, w1, env.home, inst);
    var out := StatusWrite(w, env, next);
    if out.w != w1 || out.err.None? {
      StatusReplacedAdvances(mode, w1, env.home, s);
      AdvancesTransitive(mode, w, w1, out.w, env.home);
      AdvancesParts(mode, w, out.w, env.home);
      StoredGood(mode, out.w);
    }
  }

  lemma MirrorAfter(w: World, w1: World, home: Name, inst: CR)
    requires Valid(w, home) && Copy(w, home, inst) && Evolves(w, w1)
    ensures Mirror(w, inst) ==> Mirror(w1, inst)
  {
    hide Valid, Evolves, Copy, Mirror;
    if Mirror(w, inst) {
      MirrorEvolves(w, w1, home, inst);
    }
  }

  lemma AdvancesParts(mode: Mode, w: World, w': World, home: Name)
    requires Advances(mode, w, w', home)
    ensures Valid(w', home) && Good(mode, w') && Forward(w, w')
  {
  }

  lemma StoredGood(mode: Mode, w: World)
    requires Good(mode, w)
    ensures w.cr.Some? ==> CrGood(mode, w.cr.value)
  {
  }

  /** Nothing bad happens if phase Deploying is written over the stored CR while it has the copy's version. */
  ghost predicate Covered(mode: Mode, w: World, inst: CR) {
    mode.guarded && w.cr.Some? && w.cr.value.rv == inst.rv ==> HasOurs(w.cr.value) || w.cr.value.deleting
  }

  /** The server turned the call away for another reason than a conflict. */
  predicate TurnedAway(f: Fault) {
    f.Rejected? && f.error.Unavailable?
  }

  lemma MetaWriteAdvances(mode: Mode, w: World, env: Env, inst: CR, fs: seq<string>)
    requires Valid(w, env.home) && Good(mode, w) && Copy(w, env.home, inst) && Fits(mode, w, inst)
    requires HasOurs(inst.(finalizers := fs)) || inst.deleting
    ensures var out := MetaWrite(w, env, inst.(finalizers := fs));
            && Advances(mode, w, out.w, env.home) && Copy(out.w, env.home, out.inst) && SameMeta(out.inst, inst)
            && Fits(mode, out.w, out.inst)
            && (out.err.None? ==> out.inst.finalizers == fs && (out.w.cr.None? || out.w.cr == Some(out.inst)))
            && (out.err.Some? ==> out.inst == inst.(finalizers := fs))
  {
    hide MetaWrite, Begin, Good, StatusFits, Evolves, Advances, Valid, CrReplaced;
    var next, w1 := inst.(finalizers := fs), Begin(w, env);
    MetaWriteEffect(w, env, next);
    BeginAdvances(mode, w, env);
    AdvancesParts(mode, w, w1, env.home);
    FitsEvolves(mode, w, w1, env.home, next);
    CopyEvolves(w, w1, env.home, next);
    var out := MetaWrite(w, env, next);
    if out.w != w1 || out.err.None? {
      CrReplacedAdvances(mode, w1, env.home, next);
      AdvancesTransitive(mode, w, w1, out.w, env.home);
      AdvancesParts(mode, w, out.w, env.home);
      StoredGood(mode, out.w);
      ReplacedVersion(mode, w1, next);
    }
  }

  /** A lost answer leaves the copy outdated, unless the write changed nothing. */
  lemma ReplacedVersion(mode: Mode, w: World, inst: CR)
    requires w.cr.Some? && inst.rv < w.rv && Fits(mode, w, inst)
    ensures var w' := CrReplaced(w, inst);
            Fits(mode, w', inst) && (w'.cr.Some? && w'.cr.value.rv == inst.rv ==> w' == w)
  {
    hide StatusFits;
  }

  /** When the write of a finalizer fails with an error that will be reported in the status, the stored CR has
      a finalizer or the copy is outdated, unless the server turned the write away. */
  lemma FailedMetaWrite(mode: Mode, w: World, env: Env, inst: CR)
    requires Valid(w, env.home) && HasOurs(inst) && inst.rv < w.rv
    ensures var out := MetaWrite(w, env, inst);
            out.err.Some? && out.err != Some(Conflict) && !TurnedAway(FaultOf(w, env)) ==> Covered(mode, out.w, inst)
  {
    BeginKeeps(w, env);
    hide Begin, Valid;
  }

  // ---------- errors ----------

  lemma UnhealthyUnique(s: Status, message: string)
    requires UniqueTypes(s.conditions)
    ensures UniqueTypes(Unhealthy(s, message))
  {
    SetThreeFinds(s.conditions, Condition(Available, False, message), Condition(Progressing, True, message),
                  Condition(Degraded, True, message));
  }

  lemma ErrorStatusFits(mode: Mode, w: World, inst: CR, e: Error)
    requires Fits(mode, w, inst) && Covered(mode, w, inst)
    ensures Fits(mode, w, inst.(status := ErrorStatus(inst.status, e)))
  {
    hide UniqueTypes;
    if w.cr.Some? && w.cr.value.rv == inst.rv {
      UnhealthyUnique(inst.status, ErrorText(e));
    }
    hide SetThree;
  }

  lemma ErrorHandledAdvances(mode: Mode, w: World, env: Env, inst: CR, err: Option<Error>)
    requires Valid(w, env.home) && Good(mode, w) && Copy(w, env.home, inst) && Fits(mode, w, inst)
    requires err.Some? && err.value != Conflict ==> Covered(mode, w, inst)
    ensures Advances(mode, w, ErrorHandled(w, env, inst, err).w, env.home)
  {
    hide StatusWrite, Good, Fits, ErrorStatus, Valid, Covered;
    if err.Some? && err.value != Conflict {
      ErrorStatusFits(mode, w, inst, err.value);
      StatusWriteAdvances(mode, w, env, inst, ErrorStatus(inst.status, err.value));
    }
  }

  lemma FitsCovers(mode: Mode, w: World, inst: CR)
    requires Fits(mode, w, inst) && inst.status.phase != Empty
    ensures Covered(mode, w, inst)
  {
    hide UniqueTypes, Coherent;
  }

  // ---------- initialization and migration ----------

  lemma ResourceWriteAdvances(mode: Mode, w: World, env: Env, inst: CR, fs: seq<string>)
    requires Valid(w, env.home) && Good(mode, w) && Copy(w, env.home, inst) && Fits(mode, w, inst)
    requires FINALIZER in fs && Mirror(w, inst)
    requires mode.guarded && inst.status.phase == Empty && !inst.deleting && !HasOurs(inst) ==>
               !TurnedAway(FaultOf(w, env))
    ensures var out := ResourceWrite(w, env, inst.(finalizers := fs));
            && Advances(mode, w, out.w, env.home) && Copy(out.w, env.home, out.inst) && Fits(mode, out.w, out.inst)
            && (out.err.Some? && out.err.value != Conflict ==> Covered(mode, out.w, out.inst))
  {
    hide MetaWrite, StatusWrite, Good, Fits, Valid, Covered, Advances, Copy;
    MetaWriteAdvances(mode, w, env, inst, fs);
    CopyVersion(w, env.home, inst);
    FailedMetaWrite(mode, w, env, inst.(finalizers := fs));
    var meta := MetaWrite(w, env, inst.(finalizers := fs));
    AdvancesParts(mode, w, meta.w, env.home);
    if meta.err.Some? {
      if inst.status.phase != Empty {
        FitsCovers(mode, meta.w, meta.inst);
      } else if !mode.guarded || inst.deleting {
        CoveredAnyway(mode, meta.w, env.home, meta.inst);
      } else if HasOurs(inst) {
        FinalizerCovers(mode, w, env, inst, fs);
      }
    } else {
      var s := DeployingStatus(meta.inst.status, meta.inst.gen);
      DeployingFits(mode, meta.w, meta.inst);
      StatusWriteAdvances(mode, meta.w, env, meta.inst, s);
      var out := StatusWrite(meta.w, env, meta.inst.(status := s));
      AdvancesTransitive(mode, w, meta.w, out.w, env.home);
      FitsCovers(mode, out.w, out.inst);
    }
  }

  lemma CoveredAnyway(mode: Mode, w: World, home: Name, inst: CR)
    requires Copy(w, home, inst) && (!mode.guarded || inst.deleting)
    ensures Covered(mode, w, inst)
  {
  }

  lemma FinalizerCovers(mode: Mode, w: World, env: Env, inst: CR, fs: seq<string>)
    requires Valid(w, env.home) && Copy(w, env.home, inst) && Mirror(w, inst) && HasOurs(inst) && FINALIZER in fs
    ensures Covered(mode, MetaWrite(w, env, inst.(finalizers := fs)).w, inst.(finalizers := fs))
  {
    hide MetaWrite, Begin, Evolves, Valid;
    var next := inst.(finalizers := fs);
    BeginKeeps(w, env);
    MetaWriteEffect(w, env, next);
    MirrorEvolves(w, Begin(w, env), env.home, inst);
  }

  lemma CopyVersion(w: World, home: Name, inst: CR)
    requires Copy(w, home, inst)
    ensures inst.rv < w.rv && inst.nn == home
  {
  }

  lemma DeployingFits(mode: Mode, w: World, inst: CR)
    requires Good(mode, w) && (w.cr.None? || w.cr == Some(inst)) && FINALIZER in inst.finalizers
    ensures Fits(mode, w, inst.(status := DeployingStatus(inst.status, inst.gen)))
  {
    hide UniqueTypes, History;
  }

  // ---------- operand objects are written and deleted only while a finalizer is there ----------

  ghost predicate Safe(mode: Mode, w: World, home: Name) {
    Valid(w, home) && History(mode, w.audit) && Held(mode, w)
  }

  lemma BeginSafe(mode: Mode, w: World, env: Env)
    requires Safe(mode, w, env.home)
    ensures Safe(mode, Begin(w, env), env.home) && Begin(w, env).audit == w.audit
  {
    BeginKeeps(w, env);
    HeldStays(mode, w, Begin(w, env), env.home);
    hide Begin, Valid, Evolves, History, Held;
  }

  lemma ReadSafe(mode: Mode, w: World, env: Env, k: Key, kind: Kind, tag: string, value: string)
    requires Safe(mode, w, env.home)
    ensures Safe(mode, GetObj(w, env, k).w, env.home) && Safe(mode, ListObjs(w, env, kind, tag, value).w, env.home)
  {
    hide Begin, Safe;
    BeginSafe(mode, w, env);
  }

  lemma CreateSafe(mode: Mode, w: World, env: Env, o: Obj)
    requires Safe(mode, w, env.home)
    ensures Safe(mode, CreateObj(w, env, o).w, env.home)
  {
    hide Begin, Valid, Evolves;
    BeginSafe(mode, w, env);
    CreateKeeps(w, env, o);
  }

  lemma UpdateSafe(mode: Mode, w: World, env: Env, o: Obj)
    requires Safe(mode, w, env.home)
    ensures Safe(mode, UpdateObj(w, env, o).w, env.home)
  {
    hide Begin, Valid, Evolves;
    BeginSafe(mode, w, env);
    UpdateKeeps(w, env, o);
  }

  lemma DeleteSafe(mode: Mode, w: World, env: Env, k: Key)
    requires Safe(mode, w, env.home)
    ensures Safe(mode, DeleteObject(w, env, k).w, env.home)
  {
    hide Begin, Valid, Evolves;
    BeginSafe(mode, w, env);
    DeleteKeeps(w, env, k);
  }

  lemma CallsSafe(mode: Mode, w: World, env: Env, o: Obj)
    requires Safe(mode, w, env.home)
    ensures Safe(mode, GetObj(w, env, KeyOf(o)).w, env.home)
    ensures Safe(mode, CreateObj(w, env, o).w, env.home)
    ensures Safe(mode, UpdateObj(w, env, o).w, env.home)
    ensures Safe(mode, DeleteObject(w, env, KeyOf(o)).w, env.home)
  {
    hide Safe;
    ReadSafe(mode, w, env, KeyOf(o), o.kind, "", "");
    CreateSafe(mode, w, env, o);
    UpdateSafe(mode, w, env, o);
    DeleteSafe(mode, w, env, KeyOf(o));
  }

  lemma EngineSafe(mode: Mode, w: World, env: Env, c: Versions, r: Recipe, x: Obj)
    requires Safe(mode, w, env.home)
    ensures Safe(mode, CreateOrUpdate(w, env, c, r, x).w, env.home)
  {
    hide Safe, GetObj, CreateObj, UpdateObj, DeleteObject, Mutated, Hit, Blank;
    var got := GetObj(w, env, KeyOf(x));
    CallsSafe(mode, w, env, x);
    if got.res.Err? {
      CallsSafe(mode, got.w, env, Mutated(r, env.cfg, x, Blank(x), Hit(c, Blank(x))));
    } else {
      CallsSafe(mode, got.w, env, Mutated(r, env.cfg, x, got.res.value, Hit(c, got.res.value)));
    }
  }

  lemma EntrySafe(mode: Mode, w: World, env: Env, c: Versions, inst: CR, e: Entry)
    requires Safe(mode, w, env.home)
    ensures Safe(mode, ReconcileEntry(w, env, c, inst, e, false).w, env.home)
  {
    hide Safe, CreateOrUpdate, Prepared, Remember, MarkedFor;
    var p := Prepared(e.rule, env.cfg, inst.nn.ns, inst.spec, e.obj);
    if p.Some? {
      var r := RecipeOf(e.rule, false);
      EngineSafe(mode, w, env, c, r, MarkedFor(inst, r, p.value).obj);
    }
  }

  lemma {:induction false} ListSafe(mode: Mode, w: World, env: Env, c: Versions, inst: CR, es: seq<Entry>)
    requires Safe(mode, w, env.home)
    ensures Safe(mode, ReconcileAll(w, env, c, inst, es, false).w, env.home)
    decreases |es|
  {
    hide Safe, ReconcileEntry;
    if es != [] {
      var first := ReconcileEntry(w, env, c, inst, es[0], false);
      EntrySafe(mode, w, env, c, inst, es[0]);
      if first.err.None? {
        ListSafe(mode, first.w, env, first.versions, inst, es[1..]);
      }
    }
  }

  lemma {:induction false} CleanedAllSafe(mode: Mode, w: World, env: Env, inst: CR, xs: seq<Obj>)
    requires Safe(mode, w, env.home)
    ensures Safe(mode, CleanedAll(w, env, inst, xs).w, env.home)
    decreases |xs|
  {
    hide Safe, GetObj, DeleteObject;
    if xs != [] {
      CallsSafe(mode, w, env, xs[0]);
      var got := GetObj(w, env, KeyOf(xs[0]));
      if got.res.Ok? {
        CallsSafe(mode, got.w, env, got.res.value);
      }
      CleanedAllSafe(mode, Cleaned(w, env, inst, xs[0]).w, env, inst, xs[1..]);
    }
  }

  lemma TeardownSafe(mode: Mode, w: World, env: Env, inst: CR, entries: seq<Entry>)
    requires Safe(mode, w, env.home)
    ensures Safe(mode, Teardown(w, env, inst, entries).w, env.home)
  {
    hide Safe, ListObjs, CleanedAll, TasksListed, PipelinesListed;
    var found := ListObjs(w, env, ClusterTask, MANAGED_BY_LABEL, MANAGED_BY_VALUE);
    ReadSafe(mode, w, env, Key(ClusterTask, "", ""), ClusterTask, MANAGED_BY_LABEL, MANAGED_BY_VALUE);
    if found.res.Ok? {
      var tasks := CleanedAll(found.w, env, inst, TasksListed(entries) + found.res.value);
      CleanedAllSafe(mode, found.w, env, inst, TasksListed(entries) + found.res.value);
      CleanedAllSafe(mode, tasks.w, env, inst, PipelinesListed(entries));
    }
  }

  /** A stretch in which only operand objects are written, while a finalizer holds the CR. */
  lemma SafeAdvances(mode: Mode, w: World, w': World, home: Name)
    requires Valid(w, home) && Good(mode, w) && Evolves(w, w') && Safe(mode, w', home) && Held(mode, w)
    ensures Advances(mode, w, w', home)
  {
    hide Evolves, Valid, Good, Advances, Held;
    EvolvesAdvances(mode, w, w', home);
  }

  // ---------- deletion ----------

  lemma MarkDeletedAdvances(mode: Mode, w: World, env: Env, inst: CR)
    requires Valid(w, env.home) && Good(mode, w) && Copy(w, env.home, inst) && inst.deleting
    requires w.cr.None? || w.cr == Some(inst)
    ensures Advances(mode, w, MarkDeleted(w, env, inst).w, env.home)
  {
    hide StatusWrite, Valid, Advances, Copy;
    var s := DeletedStatus(inst.status, inst.gen);
    assert Fits(mode, w, inst.(status := s)) by { hide History, UniqueTypes; }
    StatusWriteAdvances(mode, w, env, inst, s);
  }

  lemma DeletingFits(mode: Mode, w: World, inst: CR)
    requires Good(mode, w) && w.cr == Some(inst) && inst.deleting
    ensures Fits(mode, w, inst.(status := DeletingStatus(inst.status, inst.gen)))
  {
    hide UniqueTypes, History;
    UnhealthyUnique(inst.status, "Deleting Tekton tasks resources");
    hide SetThree;
  }

  lemma HeldIsSafe(mode: Mode, w: World, home: Name)
    requires Valid(w, home) && Good(mode, w) && w.cr.Some? && HasOurs(w.cr.value)
    ensures Safe(mode, w, home) && Held(mode, w)
  {
    hide Valid;
  }

  /** Taking the finalizers off, and the last status write after it. */
  lemma ReleaseAdvances(mode: Mode, w: World, env: Env, inst: CR)
    requires Valid(w, env.home) && Good(mode, w) && Copy(w, env.home, inst) && Fits(mode, w, inst) && inst.deleting
    ensures var freed := MetaWrite(w, env, Released(inst));
            && Advances(mode, w, freed.w, env.home)
            && (freed.err.None? ==> Advances(mode, w, MarkDeleted(freed.w, env, freed.inst).w, env.home))
  {
    hide MetaWrite, MarkDeleted, Copy, Valid, Good, Fits, Advances, Without, HasOurs;
    var fs := Released(inst).finalizers;
    assert Released(inst) == inst.(finalizers := fs);
    MetaWriteAdvances(mode, w, env, inst, fs);
    var freed := MetaWrite(w, env, Released(inst));
    if freed.err.None? {
      AdvancesParts(mode, w, freed.w, env.home);
      MarkDeletedAdvances(mode, freed.w, env, freed.inst);
      AdvancesTransitive(mode, w, freed.w, MarkDeleted(freed.w, env, freed.inst).w, env.home);
    }
  }

  lemma CleanupPassAdvances(mode: Mode, w: World, env: Env, inst: CR, entries: seq<Entry>)
    requires Valid(w, env.home) && Good(mode, w) && Copy(w, env.home, inst) && w.cr == Some(inst) && inst.deleting
    ensures Advances(mode, w, CleanupPass(w, env, inst, entries).w, env.home)
  {
    hide StatusWrite, MetaWrite, MarkDeleted, Teardown, Copy, Valid, Good, Fits, Advances, Safe, DeletingStatus;
    if !HasOurs(inst) {
      MarkDeletedAdvances(mode, w, env, inst);
    } else {
      var s := DeletingStatus(inst.status, inst.gen);
      DeletingFits(mode, w, inst);
      StatusWriteAdvances(mode, w, env, inst, s);
      var mark := StatusWrite(w, env, inst.(status := s));
      if mark.err.None? {
        AdvancesParts(mode, w, mark.w, env.home);
        GoodHistory(mode, mark.w);
        assert Safe(mode, mark.w, env.home) by { HeldIsSafe(mode, mark.w, env.home); }
        TeardownSafe(mode, mark.w, env, mark.inst, entries);
        TeardownKeeps(mark.w, env, mark.inst, entries);
        var down := Teardown(mark.w, env, mark.inst, entries);
        SafeAdvances(mode, mark.w, down.w, env.home);
        AdvancesTransitive(mode, w, mark.w, down.w, env.home);
        if down.res.Ok? && down.res.value == 0 {
          CopyEvolves(mark.w, down.w, env.home, mark.inst);
          AdvancesParts(mode, w, down.w, env.home);
          FitsEvolves(mode, mark.w, down.w, env.home, mark.inst);
          ReleaseAdvances(mode, down.w, env, mark.inst);
          AdvancesTransitive(mode, w, down.w, CleanupPass(w, env, inst, entries).w, env.home);
        }
      }
    }
  }

  // ---------- a full pass ----------

  lemma SetUnlessEqualUnique(conditions: seq<Condition>, c: Condition)
    requires UniqueTypes(conditions)
    ensures UniqueTypes(SetUnlessEqual(conditions, c))
  {
    SetConditionUnique(conditions, c);
    hide SetCondition, UniqueTypes, FindCondition;
  }

  lemma PreStatusUnique(cfg: Config, s: Status, gen: nat)
    requires UniqueTypes(s.conditions)
    ensures UniqueTypes(PreStatus(cfg, s, gen).conditions)
  {
    hide UniqueTypes, SetUnlessEqual;
    var message := "Reconciling Tekton tasks resources";
    SetUnlessEqualUnique(s.conditions, Condition(Available, False, message));
    var c1 := SetUnlessEqual(s.conditions, Condition(Available, False, message));
    SetUnlessEqualUnique(c1, Condition(Progressing, True, message));
    var c2 := SetUnlessEqual(c1, Condition(Progressing, True, message));
    SetUnlessEqualUnique(c2, Condition(Degraded, True, message));
  }

  lemma MirrorFits(mode: Mode, w: World, inst: CR)
    requires Good(mode, w) && Mirror(w, inst)
    ensures Fits(mode, w, inst)
  {
    hide StatusFits, History;
  }

  lemma PreStatusFits(mode: Mode, w: World, cfg: Config, inst: CR)
    requires Good(mode, w) && Mirror(w, inst) && inst.status.phase != Empty
    ensures Fits(mode, w, inst.(status := PreStatus(cfg, inst.status, inst.gen)))
  {
    hide UniqueTypes, History, SetUnlessEqual;
    if w.cr.Some? && w.cr.value.rv == inst.rv {
      PreStatusUnique(cfg, inst.status, inst.gen);
    }
  }

  lemma AggregatedFits(mode: Mode, w: World, cfg: Config, inst: CR, results: seq<ReconcileResult>)
    requires Good(mode, w) && Mirror(w, inst) && inst.status.phase != Empty
    ensures Fits(mode, w, inst.(status := Aggregated(cfg, inst.status, inst.gen, results)))
  {
    hide UniqueTypes, History, Aggregated, Holds;
    if w.cr.Some? && w.cr.value.rv == inst.rv {
      AggregationExact(cfg, inst.status, inst.gen, results);
    }
  }

  lemma PausedFits(mode: Mode, w: World, inst: CR)
    requires Good(mode, w) && Mirror(w, inst)
    ensures Fits(mode, w, inst.(status := PausedStatus(inst.status, inst.gen)))
  {
    hide UniqueTypes, History, Holds;
  }

  lemma MultipleFits(mode: Mode, w: World, inst: CR)
    requires Good(mode, w) && w.cr == Some(inst) && !mode.lone
    ensures Fits(mode, w, inst.(status := MultipleStatus(inst.status)))
  {
    hide UniqueTypes, History, Holds;
    var message := "there are multiple CRs deployed";
    SetThreeFinds(inst.status.conditions, Condition(Available, False, message),
                  Condition(Progressing, False, message), Condition(Degraded, True, message));
    hide SetThree;
  }

  lemma ReadyIsSafe(mode: Mode, w: World, home: Name, inst: CR)
    requires Valid(w, home) && Good(mode, w) && w.cr == Some(inst) && inst.status.phase != Empty && !inst.deleting
    ensures Safe(mode, w, home) && Held(mode, w)
  {
    hide Valid, History, UniqueTypes, Coherent;
  }

  lemma OperandsAdvance(mode: Mode, w: World, env: Env, m: Memory, inst: CR)
    requires Valid(w, env.home) && Good(mode, w) && w.cr == Some(inst) && inst.status.phase != Empty && !inst.deleting
    ensures var ops := ReconcileOperands(w, env, m, inst, false);
            && Advances(mode, w, ops.w, env.home) && Evolves(w, ops.w)
  {
    hide ReconcileAll, Valid, Evolves, Advances, Safe, Good, Held;
    ReadyIsSafe(mode, w, env.home, inst);
    ListSafe(mode, w, env, m.versions, inst, m.entries);
    OperandsKeep(w, env, m, inst, false);
    SafeAdvances(mode, w, ReconcileOperands(w, env, m, inst, false).w, env.home);
  }

  lemma DeployAdvances(mode: Mode, w: World, env: Env, m: Memory, inst: CR)
    requires Valid(w, env.home) && Good(mode, w) && Copy(w, env.home, inst) && Mirror(w, inst)
    requires inst.status.phase != Empty && !inst.deleting
    ensures Advances(mode, w, Deploy(w, env, m, inst, false).w, env.home)
  {
    hide StatusWrite, ErrorHandled, ReconcileOperands, Aggregated, Copy, Valid, Good, Fits, Advances, Evolves, Mirror,
         SetUnlessEqual, Covered;
    var s := PreStatus(env.cfg, inst.status, inst.gen);
    PreStatusFits(mode, w, env.cfg, inst);
    StatusWriteAdvances(mode, w, env, inst, s);
    var pre := StatusWrite(w, env, inst.(status := s));
    AdvancesParts(mode, w, pre.w, env.home);
    FitsCovers(mode, pre.w, pre.inst);
    if pre.err.Some? {
      ErrorHandledAdvances(mode, pre.w, env, pre.inst, pre.err);
      AdvancesTransitive(mode, w, pre.w, ErrorHandled(pre.w, env, pre.inst, pre.err).w, env.home);
    } else {
      OperandsAdvance(mode, pre.w, env, m, pre.inst);
      var ops := ReconcileOperands(pre.w, env, m, pre.inst, false);
      AdvancesTransitive(mode, w, pre.w, ops.w, env.home);
      AdvancesParts(mode, pre.w, ops.w, env.home);
      CopyEvolves(pre.w, ops.w, env.home, pre.inst);
      ExactCopy(pre.w, pre.inst);
      MirrorEvolves(pre.w, ops.w, env.home, pre.inst);
      FinishAdvances(mode, ops.w, env, pre.inst, ops.err, ops.results);
      AdvancesTransitive(mode, w, ops.w, Deploy(w, env, m, inst, false).w, env.home);
    }
  }

  lemma ExactCopy(w: World, inst: CR)
    requires w.cr == Some(inst)
    ensures Mirror(w, inst)
  {
  }

  /** The part of a full pass after the operands. */
  lemma FinishAdvances(mode: Mode, w: World, env: Env, inst: CR, err: Option<Error>, results: seq<ReconcileResult>)
    requires Valid(w, env.home) && Good(mode, w) && Copy(w, env.home, inst) && Mirror(w, inst)
    requires inst.status.phase != Empty
    ensures Advances(mode, w, w, env.home)
    ensures Advances(mode, w, ErrorHandled(w, env, inst, err).w, env.home)
    ensures var post := StatusWrite(w, env, inst.(status := Aggregated(env.cfg, inst.status, inst.gen, results)));
            Advances(mode, w, ErrorHandled(post.w, env, post.inst, post.err).w, env.home)
  {
    hide StatusWrite, ErrorHandled, Copy, Valid, Good, Fits, Advances, Mirror, Covered, Troubled, Summary, SetThree;
    assert Advances(mode, w, w, env.home) by { AdvancesNothing(mode, w, env.home); }
    MirrorFits(mode, w, inst);
    FitsCovers(mode, w, inst);
    ErrorHandledAdvances(mode, w, env, inst, err);
    var s := Aggregated(env.cfg, inst.status, inst.gen, results);
    AggregatedFits(mode, w, env.cfg, inst, results);
    StatusWriteAdvances(mode, w, env, inst, s);
    var post := StatusWrite(w, env, inst.(status := s));
    AdvancesParts(mode, w, post.w, env.home);
    assert s.phase != Empty;
    FitsCovers(mode, post.w, post.inst);
    ErrorHandledAdvances(mode, post.w, env, post.inst, post.err);
    AdvancesTransitive(mode, w, post.w, ErrorHandled(post.w, env, post.inst, post.err).w, env.home);
  }

  lemma AdvancesNothing(mode: Mode, w: World, home: Name)
    requires Valid(w, home) && Good(mode, w)
    ensures Advances(mode, w, w, home)
  {
    hide Good, Valid;
  }

  lemma ServeLiveAdvances(mode: Mode, w: World, env: Env, m: Memory, inst: CR)
    requires Valid(w, env.home) && Good(mode, w) && Copy(w, env.home, inst) && Mirror(w, inst)
    requires inst.status.phase != Empty && !inst.deleting
    requires mode.lone && ListCrs(w, env).res.Ok? ==> ListCrs(w, env).res.value.1 <= 1
    ensures Advances(mode, w, ServeLive(w, env, m, inst, false).w, env.home)
  {
    hide ListCrs, Deploy, StatusWrite, MultipleStatus, Copy, Valid, Good, Fits, Advances, Evolves, Mirror, IsPaused;
    ListEffect(w, env);
    var all := ListCrs(w, env);
    GoodHistory(mode, w);
    EvolvesAdvances(mode, w, all.w, env.home);
    AdvancesParts(mode, w, all.w, env.home);
    CopyEvolves(w, all.w, env.home, inst);
    MirrorEvolves(w, all.w, env.home, inst);
    if all.res.Ok? {
      if all.res.value.1 > 1 {
        if all.res.value.0.Some? {
          var item := all.res.value.0.value;
          CopyOfStored(all.w, env.home);
          MultipleFits(mode, all.w, item);
          StatusWriteAdvances(mode, all.w, env, item, MultipleStatus(item.status));
        }
      } else if IsPaused(inst) {
        PausedFits(mode, all.w, inst);
        StatusWriteAdvances(mode, all.w, env, inst, PausedStatus(inst.status, inst.gen));
      } else {
        DeployAdvances(mode, all.w, env, m, inst);
      }
      AdvancesNothing(mode, all.w, env.home);
      AdvancesTransitive(mode, w, all.w, ServeLive(w, env, m, inst, false).w, env.home);
    }
  }

  /** The pass reports that several CRs exist. */
  predicate TakesMultipleStep(w: World, env: Env) {
    var got := GetCr(w, env);
    && got.res.Ok? && IsInitialized(got.res.value) && !NeedsMigration(got.res.value) && !got.res.value.deleting
    && ListCrs(got.w, env).res.Ok? && ListCrs(got.w, env).res.value.1 > 1
  }

  /** The pass initializes a CR without finalizer, and the server turns the write of the finalizer away. */
  predicate FailsToInitialize(w: World, env: Env) {
    var got := GetCr(w, env);
    && got.res.Ok? && !IsInitialized(got.res.value) && !HasOurs(got.res.value)
    && TurnedAway(FaultOf(got.w, env))
  }

  predicate Allowed(mode: Mode, w: World, env: Env) {
    (mode.lone ==> !TakesMultipleStep(w, env)) && (mode.guarded ==> !FailsToInitialize(w, env))
  }

  lemma WriteAndHandleAdvances(mode: Mode, w: World, env: Env, inst: CR, fs: seq<string>)
    requires Valid(w, env.home) && Good(mode, w) && Copy(w, env.home, inst) && Fits(mode, w, inst)
    requires FINALIZER in fs && Mirror(w, inst)
    requires mode.guarded && inst.status.phase == Empty && !inst.deleting && !HasOurs(inst) ==>
               !TurnedAway(FaultOf(w, env))
    ensures var out := ResourceWrite(w, env, inst.(finalizers := fs));
            Advances(mode, w, ErrorHandled(out.w, env, out.inst, out.err).w, env.home)
  {
    hide ResourceWrite, ErrorHandled, Copy, Valid, Good, Fits, Advances, Covered;
    ResourceWriteAdvances(mode, w, env, inst, fs);
    var out := ResourceWrite(w, env, inst.(finalizers := fs));
    AdvancesParts(mode, w, out.w, env.home);
    ErrorHandledAdvances(mode, out.w, env, out.inst, out.err);
    AdvancesTransitive(mode, w, out.w, ErrorHandled(out.w, env, out.inst, out.err).w, env.home);
  }

  /** One pass keeps the invariant, whatever happens around it. */
  lemma PassAdvances(mode: Mode, w: World, env: Env, m: Memory)
    requires Valid(w, env.home) && Good(mode, w) && Allowed(mode, w, env)
    ensures Advances(mode, w, Pass(w, env, m, false).w, env.home)
  {
    hide GetCr, ServeLive, ErrorHandled, ResourceWrite, CleanupPass, Without, Copy, Valid, Good, Fits, Advances,
         Evolves, Mirror, ListCrs;
    ReadEffect(w, env);
    var got := GetCr(w, env);
    GoodHistory(mode, w);
    EvolvesAdvances(mode, w, got.w, env.home);
    if got.res.Ok? {
      var inst := got.res.value;
      var m1 := ClearedIfNeeded(m, inst.spec);
      AdvancesParts(mode, w, got.w, env.home);
      ExactCopy(got.w, inst);
      MirrorFits(mode, got.w, inst);
      var out := Serve(got.w, env, m1, inst, false);
      if !IsInitialized(inst) {
        WriteAndHandleAdvances(mode, got.w, env, inst, AddFinalizer(inst, FINALIZER).finalizers);
      } else if NeedsMigration(inst) {
        WriteAndHandleAdvances(mode, got.w, env, inst,
                               AddFinalizer(RemoveFinalizer(inst, OLD_FINALIZER), FINALIZER).finalizers);
      } else if inst.deleting {
        CleanupPassAdvances(mode, got.w, env, inst, m.entries);
      } else {
        ServeLiveAdvances(mode, got.w, env, m1, inst);
      }
      AdvancesTransitive(mode, w, got.w, out.w, env.home);
    }
  }

  // ---------- whole runs ----------

  /** Every pass of a run is of the kind that is followed. */
  predicate AllowedRun(mode: Mode, w: World, env: Env, m: Memory, bundle: seq<Entry>, steps: seq<Event>)
    decreases |steps|
  {
    steps == [] ||
    if steps[0].Restart? then AllowedRun(mode, w, env, Booted(bundle), bundle, steps[1..])
    else
      && Allowed(mode, w, env)
      && AllowedRun(mode, Pass(w, env, m, false).w, env, Pass(w, env, m, false).m, bundle, steps[1..])
  }

  lemma {:induction false} RunAdvances(mode: Mode, w: World, env: Env, m: Memory, bundle: seq<Entry>,
                                       steps: seq<Event>)
    requires Valid(w, env.home) && Good(mode, w)
    requires mode.lone || mode.guarded ==> AllowedRun(mode, w, env, m, bundle, steps)
    ensures Advances(mode, w, Run(w, env, m, bundle, steps, false).w, env.home)
    decreases |steps|
  {
    hide Pass, Valid, Good, Advances, Allowed;
    if steps == [] {
      AdvancesNothing(mode, w, env.home);
    } else if steps[0].Restart? {
      RunAdvances(mode, w, env, Booted(bundle), bundle, steps[1..]);
    } else {
      if !mode.lone && !mode.guarded {
        AnyPassAllowed(mode, w, env);
      }
      PassAdvances(mode, w, env, m);
      var out := Pass(w, env, m, false);
      AdvancesParts(mode, w, out.w, env.home);
      RunAdvances(mode, out.w, env, out.m, bundle, steps[1..]);
      AdvancesTransitive(mode, w, out.w, Run(out.w, env, out.m, bundle, steps[1..], false).w, env.home);
    }
  }

  lemma AnyPassAllowed(mode: Mode, w: World, env: Env)
    requires !mode.lone && !mode.guarded
    ensures Allowed(mode, w, env)
  {
  }

  // ---------- letting go ----------

  lemma MetaWriteHeld(w: World, env: Env, inst: CR, fs: seq<string>, c: CR)
    requires Valid(w, env.home) && Copy(w, env.home, inst) && StillHeld(w, c) && FINALIZER in fs
    ensures StillHeld(MetaWrite(w, env, inst.(finalizers := fs)).w, c)
  {
    hide MetaWrite, Valid, Begin, Evolves;
    BeginKeeps(w, env);
    EvolvesHeld(w, Begin(w, env), env.home, c);
    CopyHere(w, env.home, inst, fs);
    MetaWriteEffect(w, env, inst.(finalizers := fs));
  }

  lemma CopyHere(w: World, home: Name, inst: CR, fs: seq<string>)
    requires Copy(w, home, inst)
    ensures Copy(w, home, inst.(finalizers := fs))
  {
  }

  /** A status write never lets go, whichever CR was copied. */
  lemma StatusHeld(w: World, env: Env, inst: CR, s: Status, c: CR)
    requires Valid(w, env.home) && Copy(w, env.home, inst) && StillHeld(w, c)
    ensures StillHeld(StatusWrite(w, env, inst.(status := s)).w, c)
  {
    hide StatusWrite, Valid, Begin, Evolves;
    BeginKeeps(w, env);
    EvolvesHeld(w, Begin(w, env), env.home, c);
    StatusWriteEffect(w, env, inst.(status := s));
  }

  lemma HandledHeld(w: World, env: Env, inst: CR, err: Option<Error>, c: CR)
    requires Valid(w, env.home) && Copy(w, env.home, inst) && StillHeld(w, c)
    ensures StillHeld(ErrorHandled(w, env, inst, err).w, c)
  {
    hide StatusWrite, Valid, Copy, StillHeld, ErrorStatus;
    if err.Some? {
      StatusHeld(w, env, inst, ErrorStatus(inst.status, err.value), c);
    }
  }

  lemma WriteAndHandleHeld(w: World, env: Env, inst: CR, fs: seq<string>, c: CR)
    requires Valid(w, env.home) && Copy(w, env.home, inst) && StillHeld(w, c) && FINALIZER in fs
    ensures var out := ResourceWrite(w, env, inst.(finalizers := fs));
            StillHeld(ErrorHandled(out.w, env, out.inst, out.err).w, c)
  {
    hide StatusWrite, MetaWrite, ErrorHandled, Valid, Copy, Kept, StillHeld;
    MetaWriteKeeps(w, env, inst, fs);
    MetaWriteHeld(w, env, inst, fs, c);
    var meta := MetaWrite(w, env, inst.(finalizers := fs));
    KeptValid(w, meta.w, env.home);
    StatusHeld(meta.w, env, meta.inst, DeployingStatus(meta.inst.status, meta.inst.gen), c);
    ResourceWriteKeeps(w, env, inst, fs);
    var out := ResourceWrite(w, env, inst.(finalizers := fs));
    KeptValid(w, out.w, env.home);
    HandledHeld(out.w, env, out.inst, out.err, c);
  }

  lemma DeployHeld(w: World, env: Env, m: Memory, inst: CR, c: CR)
    requires Valid(w, env.home) && Copy(w, env.home, inst) && StillHeld(w, c)
    ensures StillHeld(Deploy(w, env, m, inst, false).w, c)
  {
    hide StatusWrite, ErrorHandled, ReconcileOperands, PreStatus, Aggregated, Copy, Valid, Evolves, Kept, StillHeld;
    var s := PreStatus(env.cfg, inst.status, inst.gen);
    StatusWriteKeeps(w, env, inst, s);
    StatusHeld(w, env, inst, s, c);
    var pre := StatusWrite(w, env, inst.(status := s));
    KeptValid(w, pre.w, env.home);
    HandledHeld(pre.w, env, pre.inst, pre.err, c);
    OperandsKeep(pre.w, env, m, pre.inst, false);
    var ops := ReconcileOperands(pre.w, env, m, pre.inst, false);
    EvolvesHeld(pre.w, ops.w, env.home, c);
    CopyEvolves(pre.w, ops.w, env.home, pre.inst);
    HandledHeld(ops.w, env, pre.inst, ops.err, c);
    var done := Aggregated(env.cfg, pre.inst.status, pre.inst.gen, ops.results);
    StatusWriteKeeps(ops.w, env, pre.inst, done);
    StatusHeld(ops.w, env, pre.inst, done, c);
    var post := StatusWrite(ops.w, env, pre.inst.(status := done));
    KeptValid(ops.w, post.w, env.home);
    HandledHeld(post.w, env, post.inst, post.err, c);
  }

  lemma ServeLiveHeld(w: World, env: Env, m: Memory, inst: CR, c: CR)
    requires Valid(w, env.home) && Copy(w, env.home, inst) && StillHeld(w, c)
    ensures StillHeld(ServeLive(w, env, m, inst, false).w, c)
  {
    hide ListCrs, Deploy, StatusWrite, MultipleStatus, PausedStatus, Copy, Valid, Evolves, IsPaused, StillHeld;
    ListEffect(w, env);
    var all := ListCrs(w, env);
    EvolvesHeld(w, all.w, env.home, c);
    CopyEvolves(w, all.w, env.home, inst);
    if all.res.Ok? {
      if all.res.value.0.Some? {
        CopyOfStored(all.w, env.home);
        StatusHeld(all.w, env, all.res.value.0.value, MultipleStatus(all.res.value.0.value.status), c);
      }
      StatusHeld(all.w, env, inst, PausedStatus(inst.status, inst.gen), c);
      DeployHeld(all.w, env, m, inst, c);
    }
  }

  /** The pass reads a CR that is being deleted, records that, and then finds nothing that is still pending. */
  predicate PassFindsNothingPending(w: World, env: Env, m: Memory) {
    var got := GetCr(w, env);
    && got.res.Ok? && got.res.value.deleting && !NeedsMigration(got.res.value)
    && FindsNothingPending(got.w, env, got.res.value, m.entries)
  }

  /** A pass lets go of a CR only if it finds nothing pending, whatever users do and whichever calls fail. */
  lemma PassLetsGo(w: World, env: Env, m: Memory, c: CR)
    requires Valid(w, env.home) && StillHeld(w, c)
    ensures StillHeld(Pass(w, env, m, false).w, c) || PassFindsNothingPending(w, env, m)
  {
    hide GetCr, ServeLive, ErrorHandled, ResourceWrite, CleanupPass, Without, Copy, Valid, Evolves, FindsNothingPending,
         StillHeld, HasOurs;
    ReadEffect(w, env);
    var got := GetCr(w, env);
    EvolvesHeld(w, got.w, env.home, c);
    if got.res.Ok? {
      var inst := got.res.value;
      if !IsInitialized(inst) {
        WriteAndHandleHeld(got.w, env, inst, AddFinalizer(inst, FINALIZER).finalizers, c);
      } else if NeedsMigration(inst) {
        WriteAndHandleHeld(got.w, env, inst,
                           AddFinalizer(RemoveFinalizer(inst, OLD_FINALIZER), FINALIZER).finalizers, c);
      } else if inst.deleting {
        HeldIsThis(got.w, inst, c);
        CleanupLetsGo(got.w, env, inst, m.entries);
        SameHeld(CleanupPass(got.w, env, inst, m.entries).w, inst, c);
      } else {
        ServeLiveHeld(got.w, env, ClearedIfNeeded(m, inst.spec), inst, c);
      }
    }
  }

  lemma HeldIsThis(w: World, inst: CR, c: CR)
    requires w.cr == Some(inst) && StillHeld(w, c)
    ensures HasOurs(inst) && inst.uid == c.uid
  {
  }

  /** Step number n of a run is a pass that finds nothing pending and lets go of a CR that was held until then. */
  ghost predicate ReleasedAt(w: World, env: Env, m: Memory, bundle: seq<Entry>, steps: seq<Event>, c: CR, n: nat)
    requires n < |steps|
  {
    var mid := Run(w, env, m, bundle, steps[..n], false);
    && steps[n].DoPass? && StillHeld(mid.w, c)
    && !StillHeld(Pass(mid.w, env, mid.m, false).w, c) && PassFindsNothingPending(mid.w, env, mid.m)
  }

  lemma {:induction false} RunSplit(mode: Mode, w: World, env: Env, m: Memory, bundle: seq<Entry>, steps: seq<Event>,
                                    k: nat)
    requires k <= |steps|
    ensures var mid := Run(w, env, m, bundle, steps[..k], false);
            var rest := Run(mid.w, env, mid.m, bundle, steps[k..], false);
            && Run(w, env, m, bundle, steps, false).w == rest.w
            && (AllowedRun(mode, w, env, m, bundle, steps) ==> AllowedRun(mode, w, env, m, bundle, steps[..k]))
    decreases |steps|
  {
    hide Pass, Allowed;
    if k == 0 {
      assert steps[..0] == [] && steps[0..] == steps;
    } else {
      var out := if steps[0].Restart? then RunOut(w, Booted(bundle), [])
                 else RunOut(Pass(w, env, m, false).w, Pass(w, env, m, false).m, []);
      assert steps[..k][0] == steps[0] && steps[..k][1..] == steps[1..][..k - 1] && steps[1..][k - 1..] == steps[k..];
      RunSplit(mode, out.w, env, out.m, bundle, steps[1..], k - 1);
    }
  }

  /** Over a whole run: if a CR was held and no longer is, some pass found nothing pending and let it go. */
  lemma {:induction false} RunLetsGo(w: World, env: Env, m: Memory, bundle: seq<Entry>, steps: seq<Event>, c: CR)
    requires Valid(w, env.home) && StillHeld(w, c)
    ensures StillHeld(Run(w, env, m, bundle, steps, false).w, c)
            || exists n :: 0 <= n < |steps| && ReleasedAt(w, env, m, bundle, steps, c, n)
    decreases |steps|
  {
    hide Pass, Valid, StillHeld, PassFindsNothingPending, Kept;
    if steps != [] {
      var out := if steps[0].Restart? then RunOut(w, Booted(bundle), [])
                 else RunOut(Pass(w, env, m, false).w, Pass(w, env, m, false).m, []);
      PassKept(w, env, m, false);
      KeptValid(w, Pass(w, env, m, false).w, env.home);
      PassLetsGo(w, env, m, c);
      if StillHeld(out.w, c) {
        RunLetsGo(out.w, env, out.m, bundle, steps[1..], c);
        if !StillHeld(Run(out.w, env, out.m, bundle, steps[1..], false).w, c) {
          var n :| 0 <= n < |steps[1..]| && ReleasedAt(out.w, env, out.m, bundle, steps[1..], c, n);
          assert steps[..n + 1][0] == steps[0] && steps[..n + 1][1..] == steps[1..][..n];
          assert ReleasedAt(w, env, m, bundle, steps, c, n + 1);
        }
      } else {
        assert steps[..0] == [];
        assert ReleasedAt(w, env, m, bundle, steps, c, 0);
      }
    }
  }

  /** The same, seen from the middle of a run. */
  lemma LetsGoLater(w: World, env: Env, m: Memory, bundle: seq<Entry>, steps: seq<Event>, k: nat, c: CR)
    requires Valid(w, env.home) && k <= |steps|
    requires var mid := Run(w, env, m, bundle, steps[..k], false); Valid(mid.w, env.home) && StillHeld(mid.w, c)
    ensures StillHeld(Run(w, env, m, bundle, steps, false).w, c)
            || exists n :: k <= n < |steps| && ReleasedAt(w, env, m, bundle, steps, c, n)
  {
    hide Run, Valid, StillHeld, PassFindsNothingPending, Pass, AllowedRun;
    var mode := Mode(false, false);
    var mid := Run(w, env, m, bundle, steps[..k], false);
    RunSplit(mode, w, env, m, bundle, steps, k);
    RunLetsGo(mid.w, env, mid.m, bundle, steps[k..], c);
    if !StillHeld(Run(w, env, m, bundle, steps, false).w, c) {
      var n :| 0 <= n < |steps[k..]| && ReleasedAt(mid.w, env, mid.m, bundle, steps[k..], c, n);
      assert steps[..k + n][..k] == steps[..k] && steps[..k + n][k..] == steps[k..][..n];
      RunContinues(w, env, m, bundle, steps[..k + n], k);
      assert ReleasedAt(w, env, m, bundle, steps, c, k + n);
    }
  }

  lemma {:induction false} RunContinues(w: World, env: Env, m: Memory, bundle: seq<Entry>, steps: seq<Event>, k: nat)
    requires k <= |steps|
    ensures var mid := Run(w, env, m, bundle, steps[..k], false);
            var rest := Run(mid.w, env, mid.m, bundle, steps[k..], false);
            Run(w, env, m, bundle, steps, false).w == rest.w && Run(w, env, m, bundle, steps, false).m == rest.m
    decreases |steps|
  {
    hide Pass;
    if k == 0 {
      assert steps[..0] == [] && steps[0..] == steps;
    } else {
      var out := if steps[0].Restart? then RunOut(w, Booted(bundle), [])
                 else RunOut(Pass(w, env, m, false).w, Pass(w, env, m, false).m, []);
      assert steps[..k][0] == steps[0] && steps[..k][1..] == steps[1..][..k - 1] && steps[1..][k - 1..] == steps[k..];
      RunContinues(out.w, env, out.m, bundle, steps[1..], k - 1);
    }
  }

  /** Where a run starts: the CR, if there is one, has never been served. */
  ghost predicate Beginning(w: World, home: Name) {
    Valid(w, home) && w.audit == [] && (w.cr.Some? ==> NewCr(w.cr.value))
  }

  lemma BeginningGood(mode: Mode, w: World, home: Name)
    requires Beginning(w, home)
    ensures Good(mode, w)
  {
    hide Valid;
  }

  /** Status coherence: in every run without the multiple-CR step, every status that is ever written has at
      most one condition of each type and says Deployed only with Available true and the others false. */
  lemma StatusStaysCoherent(w: World, env: Env, m: Memory, bundle: seq<Entry>, steps: seq<Event>)
    requires Beginning(w, env.home) && AllowedRun(Mode(true, false), w, env, m, bundle, steps)
    ensures var out := Run(w, env, m, bundle, steps, false).w;
            && (out.cr.Some? ==> Coherent(out.cr.value.status))
            && forall e <- out.audit :: e.CrStatus? ==> e.after.Some? && Coherent(e.after.value.status)
  {
    hide Run, AllowedRun, Coherent, Valid;
    var mode := Mode(true, false);
    BeginningGood(mode, w, env.home);
    RunAdvances(mode, w, env, m, bundle, steps);
    var out := Run(w, env, m, bundle, steps, false).w;
    AdvancesParts(mode, w, out, env.home);
    forall e <- out.audit | e.CrStatus?
      ensures e.after.Some? && Coherent(e.after.value.status)
    {
      assert EventFits(mode, e);
    }
  }

  /** Observed generation: in every run, whatever the faults and the users' edits, no write lets the observed
      generation exceed the generation or fall, and a CR that is still the same never loses one. */
  lemma ObservedGenerationAdvances(w: World, env: Env, m: Memory, bundle: seq<Entry>, steps: seq<Event>)
    requires Beginning(w, env.home)
    ensures var out := Run(w, env, m, bundle, steps, false).w;
            && (out.cr.Some? ==> out.cr.value.status.observedGeneration <= out.cr.value.gen)
            && (forall e <- out.audit :: e.CrStatus? ==>
                  && e.after.Some? && e.after.value.gen == e.before.gen
                  && e.before.status.observedGeneration <= e.after.value.status.observedGeneration <= e.before.gen)
            && (forall e <- out.audit :: e.CrWritten? && e.after.Some? ==> e.after.value.status == e.before.status)
            && (w.cr.Some? && out.cr.Some? && out.cr.value.uid == w.cr.value.uid ==>
                  w.cr.value.status.observedGeneration <= out.cr.value.status.observedGeneration)
  {
    hide Run, AllowedRun, Coherent, UniqueTypes;
    var mode := Mode(false, false);
    BeginningGood(mode, w, env.home);
    RunAdvances(mode, w, env, m, bundle, steps);
    var out := Run(w, env, m, bundle, steps, false).w;
    AdvancesParts(mode, w, out, env.home);
    forall e <- out.audit
      ensures EventFits(mode, e)
    {
    }
  }

  /** Finalizer guard: in every run in which the first write of the finalizer is never turned away, operand
      objects are written only while the CR carries a finalizer of the operator; and in whatever state of the run
      the operator has written one and not given it up, the CR is there with a finalizer, and from then on it
      stays and keeps one until a pass finds it being deleted and nothing pending any more. */
  lemma FinalizerGuard(w: World, env: Env, m: Memory, bundle: seq<Entry>, steps: seq<Event>, k: nat)
    requires Beginning(w, env.home) && AllowedRun(Mode(false, true), w, env, m, bundle, steps) && k <= |steps|
    ensures var mid, out := Run(w, env, m, bundle, steps[..k], false).w, Run(w, env, m, bundle, steps, false).w;
            && (Owes(mid.audit) ==>
                  && mid.cr.Some? && HasOurs(mid.cr.value)
                  && (StillHeld(out, mid.cr.value)
                      || exists n :: k <= n < |steps| && ReleasedAt(w, env, m, bundle, steps, mid.cr.value, n)))
            && (forall e <- mid.audit :: e.ObjCreated? || e.ObjUpdated? ==>
                  e.holder.Some? && HasOurs(e.holder.value))
            && (forall e <- mid.audit :: e.CrWritten? && HasOurs(e.before) && !e.before.deleting ==>
                  e.after.Some? && HasOurs(e.after.value))
            && (mid.cr.Some? && mid.cr.value.status.phase != Empty ==> HasOurs(mid.cr.value) || mid.cr.value.deleting)
  {
    hide Run, AllowedRun, Coherent, UniqueTypes, Valid, ReleasedAt;
    var mode := Mode(false, true);
    BeginningGood(mode, w, env.home);
    RunSplit(mode, w, env, m, bundle, steps, k);
    RunAdvances(mode, w, env, m, bundle, steps[..k]);
    var mid := Run(w, env, m, bundle, steps[..k], false).w;
    AdvancesParts(mode, w, mid, env.home);
    if Owes(mid.audit) {
      HeldHere(mid, mid.cr.value);
      LetsGoLater(w, env, m, bundle, steps, k, mid.cr.value);
    }
    forall e <- mid.audit
      ensures EventFits(mode, e)
    {
    }
  }

  // ---------- where the two conditions come from ----------

  /** The multiple-CR step breaks the coherence of a status exactly if it says Deployed. */
  lemma MultipleStepBreaksCoherence(s: Status)
    requires Coherent(s)
    ensures Coherent(MultipleStatus(s)) <==> s.phase != Deployed
  {
    var message := "there are multiple CRs deployed";
    SetThreeFinds(s.conditions, Condition(Available, False, message), Condition(Progressing, False, message),
                  Condition(Degraded, True, message));
    hide SetThree;
  }

  lemma QuietStatusWriteKeepsFinalizers(w: World, env: Env, inst: CR)
    requires w.cr.Some? && env.turn(w.calls).edits == []
    ensures var w' := StatusWrite(w, env, inst).w;
            w'.cr.Some? && w'.cr.value.finalizers == w.cr.value.finalizers && w'.calls == w.calls + 1
  {
    assert Begin(w, env) == w.(calls := w.calls + 1);
  }

  /** A pass that initializes a CR without finalizer leaves it marked as served, still without a finalizer,
      exactly if the server turns the write of the finalizer away and then takes the error status. */
  lemma InitializationLosesFinalizer(w: World, env: Env, m: Memory)
    requires w.cr.Some? && !IsInitialized(w.cr.value) && !HasOurs(w.cr.value)
    requires forall n: nat | w.calls <= n < w.calls + 4 :: env.turn(n).edits == []
    requires env.turn(w.calls).fault == Served
    ensures var c := Pass(w, env, m, false).w.cr;
            && c.Some?
            && (c.value.status.phase != Empty && !HasOurs(c.value)
                <==> TurnedAway(env.turn(w.calls + 1).fault) && !env.turn(w.calls + 2).fault.Rejected?)
  {
    hide StatusWrite, DeployingStatus;
    var inst, w1, w2 := w.cr.value, w.(calls := w.calls + 1), w.(calls := w.calls + 2);
    assert Begin(w, env) == w1 && Begin(w1, env) == w2;
    var next := AddFinalizer(inst, FINALIZER);
    var meta := MetaWrite(w1, env, next);
    assert FINALIZER in next.finalizers && next != inst;
    if env.turn(w.calls + 1).fault.Rejected? {
      assert meta == CrOut(w2, next, Some(env.turn(w.calls + 1).fault.error));
      if meta.err != Some(Conflict) {
        ErrorStatusLands(w2, env, next, meta.err.value);
      }
    } else {
      WrittenFinalizersStay(w1, env, next);
    }
  }

  lemma WrittenFinalizersStay(w: World, env: Env, next: CR)
    requires w.cr.Some? && w.cr.value.rv == next.rv && next.finalizers != []
    requires forall n: nat | w.calls <= n < w.calls + 3 :: env.turn(n).edits == []
    requires !env.turn(w.calls).fault.Rejected?
    ensures var out := ResourceWrite(w, env, next);
            var c := ErrorHandled(out.w, env, out.inst, out.err).w.cr;
            c.Some? && c.value.finalizers == next.finalizers
  {
    hide StatusWrite, DeployingStatus;
    assert Begin(w, env) == w.(calls := w.calls + 1);
    var meta, out := MetaWrite(w, env, next), ResourceWrite(w, env, next);
    assert meta.w.cr.Some? && meta.w.cr.value.finalizers == next.finalizers;
    hide MetaWrite, Begin;
    QuietStatusWriteKeepsFinalizers(meta.w, env,
                                    meta.inst.(status := DeployingStatus(meta.inst.status, meta.inst.gen)));
    if out.err.Some? {
      QuietStatusWriteKeepsFinalizers(out.w, env, out.inst.(status := ErrorStatus(out.inst.status, out.err.value)));
    }
  }

  lemma ErrorStatusLands(w: World, env: Env, inst: CR, e: Error)
    requires w.cr.Some? && env.turn(w.calls).edits == [] && w.cr.value.rv == inst.rv && e != Conflict
    requires w.cr.value.status.phase == Empty
    ensures var c := ErrorHandled(w, env, inst, Some(e)).w.cr;
            && c.Some? && c.value.finalizers == w.cr.value.finalizers
            && (c.value.status.phase != Empty <==> !env.turn(w.calls).fault.Rejected?)
  {
    assert Begin(w, env) == w.(calls := w.calls + 1);
    hide Begin, Unhealthy;
  }

  /** What the lost finalizer costs: a CR that is served without one gets all its objects, and when a user
      deletes it, it vanishes at once and leaves every one of them behind. */
  lemma LostFinalizerOrphans(w: World, env: Env, m: Memory)
    requires MemoryOk(w, env, m) && Calm(env, w.calls) && Live(w) && env.home.name != ""
    requires w.cr.Some? && Ready(w.cr.value) && w.others == 0 && w.cr.value.finalizers == []
    requires forall e <- m.entries :: Preparable(env.cfg, w.cr.value, e)
    ensures var out := Pass(w, env, m, false);
            var gone := ApplyEdit(out.w, env.home, DeleteCr);
            && gone.cr.None?
            && forall e <- out.m.entries :: !Skipped(e, w.cr.value.spec) ==>
                 KeyOf(e.obj) in gone.objs && OwnedBy(w.cr.value, gone.objs[KeyOf(e.obj)])
  {
    hide Pass, MemoryOk, Preparable, Live, Done, OwnedBy;
    FirstPassConverges(w, env, m);
    var out := Pass(w, env, m, false);
    var c, gone := out.w.cr.value, ApplyEdit(out.w, env.home, DeleteCr);
    forall e <- out.m.entries | !Skipped(e, w.cr.value.spec)
      ensures KeyOf(e.obj) in gone.objs && OwnedBy(w.cr.value, gone.objs[KeyOf(e.obj)])
    {
      assert c.nn == env.home by { HomeOfValid(out.w, env, out.m); }
      DoneIsStored(out.w, env.cfg, c, e);
      DoneIsOwned(out.w, env.cfg, c, e);
      SameOwner(c, w.cr.value, gone.objs[KeyOf(e.obj)]);
    }
  }

  lemma HomeOfValid(w: World, env: Env, m: Memory)
    requires MemoryOk(w, env, m) && w.cr.Some?
    ensures w.cr.value.nn == env.home
  {
  }

  lemma DoneIsStored(w: World, cfg: Config, c: CR, e: Entry)
    requires Done(w, cfg, c, e) && !Skipped(e, c.spec)
    ensures KeyOf(e.obj) in w.objs
  {
  }
}

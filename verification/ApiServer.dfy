/** The API server as the operator sees it, stated as functions on the cluster state, and a class
    that holds the state. Sections "Metadata" and "Concurrency Control and Consistency" of the
    Kubernetes API conventions are the source of its rules. */
module ApiServer {
  import opened Kube

  // ---------- stored state ----------

  function Stored(w: World, o: Obj): World {
    var k := KeyOf(o);
    w.(objs := w.objs[k := o], index := if k in w.index then w.index else w.index + [k])
  }

  /** Creates an object exactly as sent, with fresh server-side metadata. */
  function Insert(w: World, o: Obj): World {
    var stored := o.(typed := true, uid := w.uid, rv := w.rv, terminating := false,
                     gen := if HasGeneration(o.kind) then 1 else 0);
    Stored(w, stored).(uid := w.uid + 1, rv := w.rv + 1)
  }

  /** Replaces the writable part of a stored object. An unchanged object keeps its resource version;
      an object marked for deletion disappears with its last finalizer. */
  function Overwrite(w: World, k: Key, labels: map<string, string>, annotations: map<string, string>,
                     ownerRefs: seq<OwnerRef>, finalizers: seq<string>, payload: Payload): World
    requires k in w.objs
  {
    var prev := w.objs[k];
    var next := prev.(labels := labels, annotations := annotations, ownerRefs := ownerRefs,
                     finalizers := finalizers, payload := payload,
                     gen := if HasGeneration(k.kind) && payload != prev.payload then prev.gen + 1 else prev.gen);
    if next == prev then w
    else if prev.terminating && finalizers == [] then w.(objs := w.objs - {k})
    else w.(objs := w.objs[k := next.(rv := w.rv)], rv := w.rv + 1)
  }

  /** Deletes an object: at once if nothing holds it, otherwise by marking it. */
  function Expunge(w: World, k: Key): World
    requires k in w.objs
  {
    var prev := w.objs[k];
    if prev.finalizers == [] then w.(objs := w.objs - {k})
    else if prev.terminating then w
    else w.(objs := w.objs[k := prev.(terminating := true, rv := w.rv)], rv := w.rv + 1)
  }

  function NotePut(w: World, w': World, k: Key): World {
    if k in w'.objs && (k in w.objs ==> w'.objs[k] != w.objs[k])
    then w'.(puts := w'.puts + [Put(k, if k in w.objs then Some(w.objs[k]) else None, w'.objs[k])])
    else w'
  }

  function ApplyEdit(w: World, home: Name, e: Edit): World {
    match e
    case PutObj(k, labels, annotations, ownerRefs, finalizers, payload) =>
      NotePut(w, if k in w.objs then Overwrite(w, k, labels, annotations, ownerRefs, finalizers, payload)
                 else Insert(w, Obj(k.kind, k.name, k.ns, true, 0, 0, 0, labels, annotations, ownerRefs, finalizers,
                                    false, payload)), k)
    case DeleteObj(k) =>
      if k in w.objs then Expunge(w, k) else w
    case FinishDelete(k) =>
      if k in w.objs && w.objs[k].terminating then w.(objs := w.objs - {k}) else w
    case CreateCr(spec, labels, annotations, finalizers) =>
      if w.cr.Some? then w
      else w.(cr := Some(CR(home, w.uid, w.rv, 1, labels, annotations, finalizers, false, spec,
                            INITIAL_STATUS)),
              uid := w.uid + 1, rv := w.rv + 1, touches := w.touches + 1)
    case EditCr(spec, labels, annotations) =>
      if w.cr.None? then w
      else
        var prev := w.cr.value;
        var next := prev.(spec := spec, labels := labels, annotations := annotations,
                         gen := if spec != prev.spec then prev.gen + 1 else prev.gen);
        if next == prev then w
        else w.(cr := Some(next.(rv := w.rv)), rv := w.rv + 1, touches := w.touches + 1)
    case DeleteCr =>
      if w.cr.None? || w.cr.value.deleting then w
      else if w.cr.value.finalizers == [] then w.(cr := None, touches := w.touches + 1)
      else w.(cr := Some(w.cr.value.(deleting := true, rv := w.rv)), rv := w.rv + 1, touches := w.touches + 1)
    case SetOthers(n) =>
      w.(others := n)
  }

  function ApplyEdits(w: World, home: Name, edits: seq<Edit>): World
    decreases |edits|
  {
    if edits == [] then w else ApplyEdits(ApplyEdit(w, home, edits[0]), home, edits[1..])
  }

  // ---------- client calls ----------

  datatype Reply<+T> = Reply(w: World, res: Result<T>)

  /** The state in which call number w.calls is served. */
  function Begin(w: World, env: Env): World {
    ApplyEdits(w, env.home, env.turn(w.calls).edits).(calls := w.calls + 1)
  }

  function FaultOf(w: World, env: Env): Fault {
    env.turn(w.calls).fault
  }

  function Decode(w: World, env: Env, o: Obj): Obj {
    o.(typed := env.turn(w.calls).typed)
  }

  function Log(w: World, e: Write): World {
    w.(audit := w.audit + [e])
  }

  function GetObj(w: World, env: Env, k: Key): Reply<Obj> {
    var w1 := Begin(w, env);
    if !FaultOf(w, env).Served? then Reply(w1, Err(FaultOf(w, env).error))
    else if k !in w1.objs then Reply(w1, Err(NotFound))
    else Reply(w1, Ok(Decode(w, env, w1.objs[k])))
  }

  function CreateObj(w: World, env: Env, o: Obj): Reply<Obj> {
    var w1 := Begin(w, env);
    if FaultOf(w, env).Rejected? then Reply(w1, Err(FaultOf(w, env).error))
    else if KeyOf(o) in w1.objs then Reply(w1, Err(AlreadyExists))
    else
      var w2 := Log(Insert(w1, o), ObjCreated(KeyOf(o), w1.cr));
      if FaultOf(w, env).AnswerLost? then Reply(w2, Err(FaultOf(w, env).error))
      else Reply(w2, Ok(Decode(w, env, w2.objs[KeyOf(o)])))
  }

  function UpdateObj(w: World, env: Env, o: Obj): Reply<Obj> {
    var w1 := Begin(w, env);
    var k := KeyOf(o);
    if FaultOf(w, env).Rejected? then Reply(w1, Err(FaultOf(w, env).error))
    else if k !in w1.objs then Reply(w1, Err(NotFound))
    else if w1.objs[k].rv != o.rv then Reply(w1, Err(Conflict))
    else
      var w2 := Overwrite(w1, k, o.labels, o.annotations, o.ownerRefs, o.finalizers, o.payload);
      var w3 := if w2 == w1 then w1 else Log(w2, ObjUpdated(k, w1.cr));
      if FaultOf(w, env).AnswerLost? then Reply(w3, Err(FaultOf(w, env).error))
      else Reply(w3, Ok(if k in w3.objs then Decode(w, env, w3.objs[k]) else o))
  }

  /** A delete request names only the key: it hits whatever is stored there when it arrives. */
  function DeleteObject(w: World, env: Env, k: Key): Reply<()> {
    var w1 := Begin(w, env);
    if FaultOf(w, env).Rejected? then Reply(w1, Err(FaultOf(w, env).error))
    else if k !in w1.objs then Reply(w1, Err(NotFound))
    else
      var w2 := Expunge(w1, k);
      var w3 := if w2 == w1 then w1 else Log(w2, ObjDeleted(k, w1.objs[k]));
      if FaultOf(w, env).AnswerLost? then Reply(w3, Err(FaultOf(w, env).error))
      else Reply(w3, Ok(()))
  }

  function Listed(w: World, keys: seq<Key>, kind: Kind, tag: string, value: string): seq<Obj> {
    if keys == [] then []
    else
      var rest := Listed(w, keys[1..], kind, tag, value);
      var k := keys[0];
      if k in w.objs && k.kind == kind && tag in w.objs[k].labels && w.objs[k].labels[tag] == value
      then [w.objs[k]] + rest else rest
  }

  /** Lists the objects of a kind that carry a label. */
  function ListObjs(w: World, env: Env, kind: Kind, tag: string, value: string): Reply<seq<Obj>> {
    var w1 := Begin(w, env);
    if !FaultOf(w, env).Served? then Reply(w1, Err(FaultOf(w, env).error))
    else Reply(w1, Ok(Listed(w1, w1.index, kind, tag, value)))
  }

  function GetCr(w: World, env: Env): Reply<CR> {
    var w1 := Begin(w, env);
    if !FaultOf(w, env).Served? then Reply(w1, Err(FaultOf(w, env).error))
    else if w1.cr.None? then Reply(w1, Err(NotFound))
    else Reply(w1, Ok(w1.cr.value))
  }

  /** Lists all TektonTasks CRs: this one, if there, and the number of them. */
  function ListCrs(w: World, env: Env): Reply<(Option<CR>, nat)> {
    var w1 := Begin(w, env);
    if !FaultOf(w, env).Served? then Reply(w1, Err(FaultOf(w, env).error))
    else Reply(w1, Ok((w1.cr, w1.others + if w1.cr.Some? then 1 else 0)))
  }

  /** The stored CR after its metadata is replaced: status is a subresource and stays. */
  function CrReplaced(w: World, inst: CR): World
    requires w.cr.Some?
  {
    var prev := w.cr.value;
    var next := prev.(finalizers := inst.finalizers, labels := inst.labels, annotations := inst.annotations,
                     spec := inst.spec, gen := if inst.spec != prev.spec then prev.gen + 1 else prev.gen);
    if next == prev then w
    else if prev.deleting && next.finalizers == [] then Log(w.(cr := None), CrWritten(prev, None))
    else
      var stored := next.(rv := w.rv);
      Log(w.(cr := Some(stored), rv := w.rv + 1), CrWritten(prev, Some(stored)))
  }

  function UpdateCr(w: World, env: Env, inst: CR): Reply<CR> {
    var w1 := Begin(w, env);
    if FaultOf(w, env).Rejected? then Reply(w1, Err(FaultOf(w, env).error))
    else if w1.cr.None? then Reply(w1, Err(NotFound))
    else if w1.cr.value.rv != inst.rv then Reply(w1, Err(Conflict))
    else
      var w2 := CrReplaced(w1, inst);
      if FaultOf(w, env).AnswerLost? then Reply(w2, Err(FaultOf(w, env).error))
      else Reply(w2, Ok(if w2.cr.Some? then w2.cr.value else inst))
  }

  function StatusReplaced(w: World, status: Status): World
    requires w.cr.Some?
  {
    var prev := w.cr.value;
    if prev.status == status then w
    else
      var stored := prev.(status := status, rv := w.rv);
      Log(w.(cr := Some(stored), rv := w.rv + 1), CrStatus(prev, Some(stored)))
  }

  /** A status write touches only the status. */
  function UpdateCrStatus(w: World, env: Env, inst: CR): Reply<CR> {
    var w1 := Begin(w, env);
    if FaultOf(w, env).Rejected? then Reply(w1, Err(FaultOf(w, env).error))
    else if w1.cr.None? then Reply(w1, Err(NotFound))
    else if w1.cr.value.rv != inst.rv then Reply(w1, Err(Conflict))
    else
      var w2 := StatusReplaced(w1, inst.status);
      if FaultOf(w, env).AnswerLost? then Reply(w2, Err(FaultOf(w, env).error))
      else Reply(w2, Ok(w2.cr.value))
  }

  // ---------- what the server keeps ----------

  ghost predicate ValidObj(w: World, k: Key, o: Obj) {
    && KeyOf(o) == k && o.typed
    && 0 < o.rv < w.rv && 0 < o.uid < w.uid
    && (o.gen > 0 <==> HasGeneration(k.kind))
    && (o.terminating ==> o.finalizers != [])
  }

  ghost predicate ValidCr(w: World, home: Name, c: CR) {
    && c.nn == home
    && 0 < c.rv < w.rv && 0 < c.uid < w.uid && 0 < c.gen
    && (c.deleting ==> c.finalizers != [])
  }

  ghost predicate Valid(w: World, home: Name) {
    && 0 < w.rv && 0 < w.uid
    && (forall k <- w.objs :: ValidObj(w, k, w.objs[k]))
    && (forall k <- w.objs :: k in w.index)
    && (w.cr.Some? ==> ValidCr(w, home, w.cr.value))
  }

  /** How one object may change while anybody writes to it: the same version is the same object, and
      the same generation is the same payload. */
  ghost predicate Later(o: Obj, o': Obj, rv: nat) {
    || o == o'
    || (&& o'.uid == o.uid && o'.rv >= rv && o.gen <= o'.gen
        && (o.gen == o'.gen && o.gen > 0 ==> o.payload == o'.payload)
        && (o.terminating ==> o'.terminating))
  }

  ghost predicate ObjFrom(w: World, k: Key, o': Obj) {
    || (k in w.objs && Later(w.objs[k], o', w.rv))
    || (o'.uid >= w.uid && o'.rv >= w.rv)
  }

  /** How the CR may change while only users write to it. */
  ghost predicate CrLater(c: CR, c': CR, rv: nat) {
    || c == c'
    || (&& c'.uid == c.uid && c'.nn == c.nn && c'.rv >= rv
        && c'.finalizers == c.finalizers && c'.status == c.status
        && c.gen <= c'.gen && (c.gen == c'.gen ==> c.spec == c'.spec)
        && (c.deleting ==> c'.deleting))
  }

  ghost predicate NewCr(c: CR) {
    c.status == INITIAL_STATUS
  }

  ghost predicate CrFrom(w: World, c': CR) {
    || (w.cr.Some? && CrLater(w.cr.value, c', w.rv))
    || (c'.uid >= w.uid && c'.rv >= w.rv && NewCr(c'))
  }

  ghost predicate ObjsEvolve(w: World, w': World) {
    && w.rv <= w'.rv && w.uid <= w'.uid
    && (forall k <- w'.objs :: ObjFrom(w, k, w'.objs[k]))
  }

  /** Only users have touched the CR: it keeps its status and its finalizers, which hold it. */
  ghost predicate CrEvolves(w: World, w': World) {
    && w.rv <= w'.rv && w.uid <= w'.uid
    && (w'.cr.Some? ==> CrFrom(w, w'.cr.value))
    && (w.cr.Some? && w.cr.value.finalizers != [] ==> w'.cr.Some? && w'.cr.value.uid == w.cr.value.uid)
    && w.touches <= w'.touches && (w.touches == w'.touches ==> w'.cr == w.cr)
    && Stake(w'.cr) <= Stake(w.cr) + 2 * (w'.touches - w.touches)
  }

  /** The CR writes in an audit log. */
  function CrTrace(audit: seq<Write>): seq<Write>
  {
    if audit == [] then []
    else
      var last := audit[|audit| - 1];
      var rest := CrTrace(audit[..|audit| - 1]);
      if last.CrWritten? || last.CrStatus? then rest + [last] else rest
  }

  /** A stretch of time in which the operator writes no CR. */
  ghost predicate Evolves(w: World, w': World) {
    && ObjsEvolve(w, w') && CrEvolves(w, w')
    && CrTrace(w'.audit) == CrTrace(w.audit)
    && w.calls <= w'.calls && w.puts <= w'.puts
  }

  lemma EvolvesTransitive(w: World, w1: World, w2: World, home: Name)
    requires Valid(w, home) && Valid(w1, home)
    requires Evolves(w, w1) && Evolves(w1, w2)
    ensures Evolves(w, w2)
  {
    forall k <- w2.objs
      ensures ObjFrom(w, k, w2.objs[k])
    {
      assert ObjFrom(w1, k, w2.objs[k]);
    }
  }

  lemma PutKeeps(w: World, home: Name, o: Obj)
    requires Valid(w, home) && KeyOf(o) !in w.objs
    ensures Valid(Insert(w, o), home) && Evolves(w, Insert(w, o))
  {
  }

  lemma OverwriteKeeps(w: World, home: Name, k: Key, labels: map<string, string>,
                       annotations: map<string, string>, ownerRefs: seq<OwnerRef>,
                       finalizers: seq<string>, payload: Payload)
    requires Valid(w, home) && k in w.objs
    ensures var w' := Overwrite(w, k, labels, annotations, ownerRefs, finalizers, payload);
            Valid(w', home) && Evolves(w, w')
  {
  }

  lemma ExpungeKeeps(w: World, home: Name, k: Key)
    requires Valid(w, home) && k in w.objs
    ensures Valid(Expunge(w, k), home) && Evolves(w, Expunge(w, k))
  {
  }

  lemma CrEditKeeps(w: World, home: Name, e: Edit)
    requires Valid(w, home) && (e.CreateCr? || e.EditCr? || e.DeleteCr? || e.SetOthers? || e.FinishDelete?)
    ensures Valid(ApplyEdit(w, home, e), home) && Evolves(w, ApplyEdit(w, home, e))
  {
  }

  lemma EvolvesObjs(w: World, w': World)
    requires Evolves(w, w')
    ensures ObjsEvolve(w, w')
  {
  }

  lemma EvolvesReflexive(w: World)
    ensures Evolves(w, w)
  {
  }

  lemma NotedKeeps(w: World, w': World, home: Name, k: Key)
    requires Valid(w', home) && Evolves(w, w')
    ensures Valid(NotePut(w, w', k), home) && Evolves(w, NotePut(w, w', k))
  {
    hide CrFrom, ObjFrom, CrTrace, Stake;
  }

  lemma NotedAudit(w: World, w': World, k: Key)
    ensures NotePut(w, w', k).audit == w'.audit && NotePut(w, w', k).calls == w'.calls
  {
  }

  lemma EditKeeps(w: World, home: Name, e: Edit)
    requires Valid(w, home)
    ensures Valid(ApplyEdit(w, home, e), home) && Evolves(w, ApplyEdit(w, home, e))
    ensures ApplyEdit(w, home, e).audit == w.audit && ApplyEdit(w, home, e).calls == w.calls
  {
    hide Valid, Evolves, NotePut;
    EvolvesReflexive(w);
    match e
    case PutObj(k, labels, annotations, ownerRefs, finalizers, payload) =>
      if k in w.objs {
        OverwriteKeeps(w, home, k, labels, annotations, ownerRefs, finalizers, payload);
        NotedKeeps(w, Overwrite(w, k, labels, annotations, ownerRefs, finalizers, payload), home, k);
        NotedAudit(w, Overwrite(w, k, labels, annotations, ownerRefs, finalizers, payload), k);
      } else {
        var o := Obj(k.kind, k.name, k.ns, true, 0, 0, 0, labels, annotations, ownerRefs, finalizers, false, payload);
        PutKeeps(w, home, o);
        NotedKeeps(w, Insert(w, o), home, k);
        NotedAudit(w, Insert(w, o), k);
      }
    case DeleteObj(k) =>
      if k in w.objs {
        ExpungeKeeps(w, home, k);
      }
    case _ => CrEditKeeps(w, home, e);
  }

  lemma {:induction false} EditsKeep(w: World, home: Name, edits: seq<Edit>)
    requires Valid(w, home)
    ensures Valid(ApplyEdits(w, home, edits), home) && Evolves(w, ApplyEdits(w, home, edits))
    ensures ApplyEdits(w, home, edits).audit == w.audit && ApplyEdits(w, home, edits).calls == w.calls
    decreases |edits|
  {
    if edits != [] {
      var w1 := ApplyEdit(w, home, edits[0]);
      EditKeeps(w, home, edits[0]);
      EditsKeep(w1, home, edits[1..]);
      EvolvesTransitive(w, w1, ApplyEdits(w1, home, edits[1..]), home);
    }
  }

  lemma BeginKeeps(w: World, env: Env)
    requires Valid(w, env.home)
    ensures Valid(Begin(w, env), env.home) && Evolves(w, Begin(w, env))
    ensures Begin(w, env).audit == w.audit && Begin(w, env).calls == w.calls + 1
  {
    EditsKeep(w, env.home, env.turn(w.calls).edits);
  }

  lemma GetKeeps(w: World, env: Env, k: Key)
    requires Valid(w, env.home)
    ensures var r := GetObj(w, env, k); Valid(r.w, env.home) && Evolves(w, r.w) && r.w.audit == w.audit
    ensures var r := GetObj(w, env, k); r.res.Ok? ==> k in r.w.objs && r.res.value == Decode(w, env, r.w.objs[k])
  {
    BeginKeeps(w, env);
  }

  lemma LogKeeps(w: World, w': World, home: Name, e: Write)
    requires Valid(w', home) && Evolves(w, w') && !e.CrWritten? && !e.CrStatus?
    ensures Valid(Log(w', e), home) && Evolves(w, Log(w', e))
  {
  }

  lemma CreateKeeps(w: World, env: Env, o: Obj)
    requires Valid(w, env.home)
    ensures var r := CreateObj(w, env, o); Valid(r.w, env.home) && Evolves(w, r.w)
  {
    hide Begin, Evolves, Valid, Insert;
    BeginKeeps(w, env);
    var w1 := Begin(w, env);
    if KeyOf(o) !in w1.objs {
      PutKeeps(w1, env.home, o);
      EvolvesTransitive(w, w1, Insert(w1, o), env.home);
      LogKeeps(w, Insert(w1, o), env.home, ObjCreated(KeyOf(o), w1.cr));
    }
  }

  lemma UpdateKeeps(w: World, env: Env, o: Obj)
    requires Valid(w, env.home)
    ensures var r := UpdateObj(w, env, o); Valid(r.w, env.home) && Evolves(w, r.w)
  {
    hide Begin, Evolves, Valid, Overwrite;
    BeginKeeps(w, env);
    var w1, k := Begin(w, env), KeyOf(o);
    if k in w1.objs {
      var w2 := Overwrite(w1, k, o.labels, o.annotations, o.ownerRefs, o.finalizers, o.payload);
      OverwriteKeeps(w1, env.home, k, o.labels, o.annotations, o.ownerRefs, o.finalizers, o.payload);
      EvolvesTransitive(w, w1, w2, env.home);
      LogKeeps(w, w2, env.home, ObjUpdated(k, w1.cr));
    }
  }

  lemma DeleteKeeps(w: World, env: Env, k: Key)
    requires Valid(w, env.home)
    ensures var r := DeleteObject(w, env, k); Valid(r.w, env.home) && Evolves(w, r.w)
  {
    hide Begin, Evolves, Valid, Expunge;
    BeginKeeps(w, env);
    var w1 := Begin(w, env);
    if k in w1.objs {
      var w2 := Expunge(w1, k);
      ExpungeKeeps(w1, env.home, k);
      EvolvesTransitive(w, w1, w2, env.home);
      LogKeeps(w, w2, env.home, ObjDeleted(k, w1.objs[k]));
    }
  }

  lemma ListKeeps(w: World, env: Env, kind: Kind, tag: string, value: string)
    requires Valid(w, env.home)
    ensures var r := ListObjs(w, env, kind, tag, value); Valid(r.w, env.home) && Evolves(w, r.w) && r.w.audit == w.audit
  {
    BeginKeeps(w, env);
  }

  // ---------- the client ----------

  /** The client of the API server. Its calls are the only way the operator touches the cluster. */
  class Cluster {
    const env: Env
    var world: World

    constructor (env: Env, world: World)
      ensures this.env == env && this.world == world
    {
      this.env := env;
      this.world := world;
    }

    method Get(k: Key) returns (res: Result<Obj>)
      modifies this
      ensures Reply(world, res) == GetObj(old(world), env, k)
    {
      var r := GetObj(world, env, k);
      world, res := r.w, r.res;
    }

    method Create(o: Obj) returns (res: Result<Obj>)
      modifies this
      ensures Reply(world, res) == CreateObj(old(world), env, o)
    {
      var r := CreateObj(world, env, o);
      world, res := r.w, r.res;
    }

    method Update(o: Obj) returns (res: Result<Obj>)
      modifies this
      ensures Reply(world, res) == UpdateObj(old(world), env, o)
    {
      var r := UpdateObj(world, env, o);
      world, res := r.w, r.res;
    }

    method Delete(k: Key) returns (res: Result<()>)
      modifies this
      ensures Reply(world, res) == DeleteObject(old(world), env, k)
    {
      var r := DeleteObject(world, env, k);
      world, res := r.w, r.res;
    }

    method List(kind: Kind, tag: string, value: string) returns (res: Result<seq<Obj>>)
      modifies this
      ensures Reply(world, res) == ListObjs(old(world), env, kind, tag, value)
    {
      var r := ListObjs(world, env, kind, tag, value);
      world, res := r.w, r.res;
    }

    method GetInstance() returns (res: Result<CR>)
      modifies this
      ensures Reply(world, res) == GetCr(old(world), env)
    {
      var r := GetCr(world, env);
      world, res := r.w, r.res;
    }

    method ListInstances() returns (res: Result<(Option<CR>, nat)>)
      modifies this
      ensures Reply(world, res) == ListCrs(old(world), env)
    {
      var r := ListCrs(world, env);
      world, res := r.w, r.res;
    }

    method UpdateInstance(inst: CR) returns (res: Result<CR>)
      modifies this
      ensures Reply(world, res) == UpdateCr(old(world), env, inst)
    {
      var r := UpdateCr(world, env, inst);
      world, res := r.w, r.res;
    }

    method UpdateInstanceStatus(inst: CR) returns (res: Result<CR>)
      modifies this
      ensures Reply(world, res) == UpdateCrStatus(old(world), env, inst)
    {
      var r := UpdateCrStatus(world, env, inst);
      world, res := r.w, r.res;
    }
  }
}

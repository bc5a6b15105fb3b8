/** Waiting for the custom resource definitions (CRDs) the operands need: an event-driven gate
    (controllers/crd_controller.go) beside a check at start-up (controllers/setup.go). */
module CrdGate {
  import opened Kube
  import opened ApiServer
  import opened StatusReport
  import opened Controller

  /** What looking one CRD up gives. */
  datatype Lookup = Found(terminating: bool) | Missing | LookupFailed(error: FaultError)

  // ---------- the gate as a function ----------

  type Crds = map<string, bool>

  function Required(names: seq<string>): Crds {
    map n <- names :: false
  }

  predicate AllExist(crds: Crds) {
    forall n <- crds :: crds[n]
  }

  /** A CRD that is being deleted does not count as existing. */
  predicate Exists(l: Lookup) {
    l.Found? && !l.terminating
  }

  function Noted(crds: Crds, name: string, exists_: bool): Crds {
    if name in crds then crds[name := exists_] else crds
  }

  datatype Conditions = Conditions(w: World, err: Option<Error>)

  /** setConditions: the status of the single CR, as if nothing were wrong with it; the status of a CR
      other than the followed one is not part of this model. */
  function SetConditions(w: World, env: Env): Conditions {
    var all := ListCrs(w, env);
    if all.res.Err? then Conditions(all.w, Some(all.res.error))
    else if all.res.value.1 > 1 then
      Conditions(all.w, Some(Unavailable("multiple TektonTasks CRs in single namespace")))
    else if all.res.value.0.None? then Conditions(all.w, None)
    else
      var item := all.res.value.0.value;
      var out := StatusWrite(all.w, env, item.(status := Aggregated(env.cfg, item.status, item.gen, [])));
      Conditions(out.w, out.err)
  }

  /** One event of the gate; the result says whether waiting is over. */
  datatype GateOut = GateOut(w: World, crds: Crds, res: Result<bool>)

  function GateStep(w: World, env: Env, crds: Crds, name: string, lookup: Lookup): GateOut {
    var c := SetConditions(w, env);
    if c.err.Some? then GateOut(c.w, crds, Err(c.err.value))
    else if lookup.LookupFailed? then GateOut(c.w, crds, Err(lookup.error))
    else
      var next := Noted(crds, name, Exists(lookup));
      GateOut(c.w, next, Ok(AllExist(next)))
  }

  datatype Seen = Seen(name: string, lookup: Lookup)

  /** The gate over a sequence of events, with its answers. */
  datatype GateRunOut = GateRunOut(w: World, crds: Crds, answers: seq<Result<bool>>)

  function GateRun(w: World, env: Env, crds: Crds, events: seq<Seen>): (out: GateRunOut)
    ensures |out.answers| == |events|
    decreases |events|
  {
    if events == [] then GateRunOut(w, crds, [])
    else
      var first := GateStep(w, env, crds, events[0].name, events[0].lookup);
      var rest := GateRun(first.w, env, first.crds, events[1..]);
      rest.(answers := [first.res] + rest.answers)
  }

  // ---------- which events are processed ----------

  /** An event is turned away: the list of the CRs is not answered, there are several, the status write of the
      single one fails (it is not served, or the CR has changed or gone since it was listed), or the lookup of
      the CRD fails. That a CRD is missing is no failure. */
  ghost predicate Refused(w: World, env: Env, e: Seen) {
    var listed, written := Begin(w, env), Begin(Begin(w, env), env);
    || env.turn(w.calls).fault != Served
    || (listed.cr.Some? && listed.others > 0) || listed.others > 1
    || (listed.cr.Some?
        && (|| env.turn(w.calls + 1).fault != Served || written.cr.None?
            || written.cr.value.rv != listed.cr.value.rv))
    || e.lookup.LookupFailed?
  }

  /** An event is answered with an error if and only if it is turned away. */
  lemma RefusedExactly(w: World, env: Env, crds: Crds, e: Seen)
    ensures GateStep(w, env, crds, e.name, e.lookup).res.Err? <==> Refused(w, env, e)
  {
    BeginCounts(w, env);
    var listed := ListCrs(w, env);
    hide Begin, Aggregated;
    if listed.res.Ok? && listed.res.value.0.Some? {
      BeginCounts(listed.w, env);
    }
  }

  lemma BeginCounts(w: World, env: Env)
    ensures Begin(w, env).calls == w.calls + 1
  {
  }

  /** The world after an event. */
  function Onward(w: World, env: Env): World {
    SetConditions(w, env).w
  }

  // ---------- what the gate knows ----------

  /** The existence of a CRD as of the last event about it that was not turned away: it was found, and it was
      not being deleted. */
  ghost function LastSeen(w: World, env: Env, events: seq<Seen>, name: string, before: bool): bool
    decreases |events|
  {
    if events == [] then before
    else
      var now := if !Refused(w, env, events[0]) && events[0].name == name then events[0].lookup == Found(false)
                 else before;
      LastSeen(Onward(w, env), env, events[1..], name, now)
  }

  /** Over every sequence of events, whatever fails in between, the gate keeps exactly the required names, and
      knows of each the last existence it processed. */
  lemma {:induction false} GateKnowsLastSeen(w: World, env: Env, crds: Crds, events: seq<Seen>)
    ensures var out := GateRun(w, env, crds, events);
            && out.crds.Keys == crds.Keys
            && forall n <- crds :: out.crds[n] == LastSeen(w, env, events, n, crds[n])
    decreases |events|
  {
    hide GateStep, Refused, Onward;
    if events != [] {
      var first := GateStep(w, env, crds, events[0].name, events[0].lookup);
      StepNotes(w, env, crds, events[0]);
      GateKnowsLastSeen(first.w, env, first.crds, events[1..]);
    }
  }

  lemma StepNotes(w: World, env: Env, crds: Crds, e: Seen)
    ensures var out := GateStep(w, env, crds, e.name, e.lookup);
            && out.w == Onward(w, env) && out.crds.Keys == crds.Keys
            && (out.res.Ok? <==> !Refused(w, env, e))
            && (out.res.Ok? ==> out.res.value == forall n <- out.crds :: out.crds[n])
            && forall n <- crds ::
                 out.crds[n] == if !Refused(w, env, e) && e.name == n then e.lookup == Found(false) else crds[n]
  {
    RefusedExactly(w, env, crds, e);
    hide SetConditions, Refused;
  }

  /** The gate says "finished" exactly when, by the last events processed, every required CRD exists; and it gives
      no answer exactly to an event that is turned away. */
  lemma {:induction false} FinishedExactly(w: World, env: Env, crds: Crds, events: seq<Seen>, e: Seen)
    ensures var out := GateRun(w, env, crds, events);
            var last := GateStep(out.w, env, out.crds, e.name, e.lookup);
            if Refused(out.w, env, e) then last.res.Err?
            else last.res == Ok(forall n <- crds :: LastSeen(w, env, events + [e], n, crds[n]))
  {
    hide GateStep, GateRun, LastSeen, Refused;
    GateKnowsLastSeen(w, env, crds, events);
    var out := GateRun(w, env, crds, events);
    var last := GateStep(out.w, env, out.crds, e.name, e.lookup);
    StepNotes(out.w, env, out.crds, e);
    if last.res.Ok? {
      forall n <- crds
        ensures last.crds[n] == LastSeen(w, env, events + [e], n, crds[n])
      {
        LastSeenAppend(w, env, crds, events, e, n, crds[n]);
      }
    }
  }

  lemma {:induction false} LastSeenAppend(w: World, env: Env, crds: Crds, events: seq<Seen>, e: Seen, name: string,
                                          before: bool)
    ensures var end := GateRun(w, env, crds, events).w;
            LastSeen(w, env, events + [e], name, before)
            == if !Refused(end, env, e) && e.name == name then e.lookup == Found(false)
               else LastSeen(w, env, events, name, before)
    decreases |events|
  {
    hide GateStep, Refused, Onward;
    if events == [] {
      assert [e][1..] == [];
    } else {
      assert (events + [e])[1..] == events[1..] + [e];
      var first := GateStep(w, env, crds, events[0].name, events[0].lookup);
      StepNotes(w, env, crds, events[0]);
      var now := if !Refused(w, env, events[0]) && events[0].name == name then events[0].lookup == Found(false)
                 else before;
      LastSeenAppend(first.w, env, first.crds, events[1..], e, name, now);
    }
  }

  // ---------- the check at start-up ----------

  datatype Crd = Crd(name: string, terminating: bool)

  predicate ListedIn(name: string, found: seq<Crd>) {
    exists c <- found :: c.name == name
  }

  /** requiredCrdsExist: a nested loop that leaves the inner loop at the first match. */
  method RequiredCrdsExist(required: seq<string>, found: seq<Crd>) returns (all: bool)
    ensures all <==> forall n <- required :: ListedIn(n, found)
  {
    for i := 0 to |required|
      invariant forall n <- required[..i] :: ListedIn(n, found)
    {
      var matched := false;
      for j := 0 to |found|
        invariant !matched && forall c <- found[..j] :: c.name != required[i]
      {
        if required[i] == found[j].name {
          matched := true;
          break;
        }
      }
      if !matched {
        assert found[..|found|] == found;
        assert required[i] in required && !ListedIn(required[i], found);
        return false;
      }
      assert required[..i + 1] == required[..i] + [required[i]];
    }
    assert required[..|required|] == required;
    return true;
  }

  /** The names that all operands require, collected by appending. */
  method CollectRequired(operands: seq<seq<string>>) returns (required: seq<string>)
    ensures forall n :: n in required <==> exists o <- operands :: n in o
  {
    required := [];
    for i := 0 to |operands|
      invariant forall n :: n in required <==> exists k :: 0 <= k < i && n in operands[k]
    {
      required := required + operands[i];
    }
  }

  // ---------- gate and check agree ----------

  /** One event for each listed CRD. */
  function Announced(found: seq<Crd>): seq<Seen> {
    if found == [] then [] else [Seen(found[0].name, Found(found[0].terminating))] + Announced(found[1..])
  }

  /** No event is turned away. */
  ghost predicate NoneRefused(w: World, env: Env, events: seq<Seen>)
    decreases |events|
  {
    events == [] || (!Refused(w, env, events[0]) && NoneRefused(Onward(w, env), env, events[1..]))
  }

  /** The existence of a CRD by the last entry of a list. */
  function LastListed(found: seq<Crd>, name: string, before: bool): bool {
    if found == [] then before
    else LastListed(found[1..], name, if found[0].name == name then !found[0].terminating else before)
  }

  lemma {:induction false} AnnouncedSeen(w: World, env: Env, found: seq<Crd>, name: string, before: bool)
    requires NoneRefused(w, env, Announced(found))
    ensures LastSeen(w, env, Announced(found), name, before) == LastListed(found, name, before)
    decreases |found|
  {
    hide Refused, Onward;
    if found != [] {
      var now := if found[0].name == name then !found[0].terminating else before;
      assert Announced(found)[1..] == Announced(found[1..]);
      AnnouncedSeen(Onward(w, env), env, found[1..], name, now);
    }
  }

  lemma {:induction false} LastListedAlive(found: seq<Crd>, name: string, before: bool)
    requires forall c <- found :: !c.terminating
    ensures LastListed(found, name, before) <==> before || ListedIn(name, found)
    decreases |found|
  {
    if found != [] {
      assert found[0] in found;
      var now := if found[0].name == name then !found[0].terminating else before;
      LastListedAlive(found[1..], name, now);
      assert ListedIn(name, found) <==> found[0].name == name || ListedIn(name, found[1..]) by {
        assert found == [found[0]] + found[1..];
      }
    }
  }

  /** Fed one event for each listed CRD, in any order and with any repetitions, the gate ends with the answer
      of the start-up check, provided that no listed CRD is being deleted. */
  lemma GateAgreesWithCheck(w: World, env: Env, required: seq<string>, found: seq<Crd>, order: seq<Crd>)
    requires (forall c <- found :: !c.terminating) && (forall c :: c in order <==> c in found)
    requires NoneRefused(w, env, Announced(order))
    ensures var out := GateRun(w, env, Required(required), Announced(order));
            (forall n <- out.crds :: out.crds[n]) <==> forall n <- required :: ListedIn(n, found)
  {
    hide GateRun, LastListed, LastSeen, NoneRefused;
    var crds, out := Required(required), GateRun(w, env, Required(required), Announced(order));
    GateKnowsLastSeen(w, env, crds, Announced(order));
    forall n <- crds
      ensures out.crds[n] <==> ListedIn(n, found)
    {
      AnnouncedSeen(w, env, order, n, false);
      LastListedAlive(order, n, false);
    }
  }

  predicate UniqueNames(found: seq<Crd>) {
    forall i, j | 0 <= i < j < |found| :: found[i].name != found[j].name
  }

  lemma {:induction false} LastListedUnique(found: seq<Crd>, name: string, before: bool)
    requires UniqueNames(found)
    ensures LastListed(found, name, before)
        <==> (exists c <- found :: c.name == name && !c.terminating) || (before && !ListedIn(name, found))
    decreases |found|
  {
    if found != [] {
      var now := if found[0].name == name then !found[0].terminating else before;
      LastListedUnique(found[1..], name, now);
      assert found == [found[0]] + found[1..];
      assert ListedIn(name, found) <==> found[0].name == name || ListedIn(name, found[1..]);
      if found[0].name == name {
        assert !ListedIn(name, found[1..]);
      }
    }
  }

  /** The check ignores that a CRD is being deleted, the gate does not: with names listed once, the two
      disagree exactly if every required CRD is listed and one of them is being deleted. */
  lemma GateDisagreesExactly(w: World, env: Env, required: seq<string>, found: seq<Crd>)
    requires UniqueNames(found) && NoneRefused(w, env, Announced(found))
    ensures var out := GateRun(w, env, Required(required), Announced(found));
            ((forall n <- out.crds :: out.crds[n]) != forall n <- required :: ListedIn(n, found))
            <==> (&& (forall n <- required :: ListedIn(n, found))
                  && exists c <- found :: c.name in required && c.terminating)
  {
    hide GateRun, LastListed, LastSeen, UniqueNames, NoneRefused;
    var crds, out := Required(required), GateRun(w, env, Required(required), Announced(found));
    GateKnowsLastSeen(w, env, crds, Announced(found));
    forall n <- crds
      ensures out.crds[n] <==> exists c <- found :: c.name == n && !c.terminating
    {
      AnnouncedSeen(w, env, found, n, false);
      LastListedUnique(found, n, false);
    }
    if AllExist(out.crds) {
      forall n <- required
        ensures ListedIn(n, found) && forall c <- found :: c.name == n ==> !c.terminating
      {
        assert out.crds[n];
        OneEntry(found, n);
      }
    } else if forall n <- required :: ListedIn(n, found) {
      var n :| n in crds && !out.crds[n];
      assert ListedIn(n, found);
    }
  }

  lemma OneEntry(found: seq<Crd>, name: string)
    requires UniqueNames(found)
    ensures forall c <- found, d <- found :: c.name == name && d.name == name ==> c == d
  {
  }

  // ---------- the status the gate writes ----------

  /** While users leave the CR alone, the gate marks a CR that was never served as served exactly if there is no
      other CR, the list is answered and the status write is not turned away; its answer may be lost. The phase
      is Deployed then, and the controller takes the CR for initialized, although it has no more finalizers than
      before. */
  lemma ConditionsSkipInitialization(w: World, env: Env)
    requires w.cr.Some? && !IsInitialized(w.cr.value)
    requires env.turn(w.calls).edits == [] && env.turn(w.calls + 1).edits == []
    ensures var cr := SetConditions(w, env).w.cr;
            && cr.Some? && cr.value.finalizers == w.cr.value.finalizers
            && (IsInitialized(cr.value) <==> cr.value.status.phase == Deployed)
            && (IsInitialized(cr.value)
                <==> env.turn(w.calls).fault == Served && w.others == 0 && !env.turn(w.calls + 1).fault.Rejected?)
  {
    hide SetThree, Summary;
    assert Begin(w, env) == w.(calls := w.calls + 1);
    var all := ListCrs(w, env);
    assert Begin(all.w, env) == all.w.(calls := all.w.calls + 1);
    hide Begin;
  }

  // ---------- the gate as the source runs it ----------

  class WaitForCrds {
    const cluster: Cluster
    var crds: Crds

    constructor (cluster: Cluster, requiredCrds: seq<string>)
      ensures this.cluster == cluster && crds == Required(requiredCrds)
    {
      var start: Crds := map[];
      for i := 0 to |requiredCrds|
        invariant start == Required(requiredCrds[..i])
      {
        start := start[requiredCrds[i] := false];
        assert requiredCrds[..i + 1] == requiredCrds[..i] + [requiredCrds[i]];
      }
      assert requiredCrds[..|requiredCrds|] == requiredCrds;
      this.cluster, crds := cluster, start;
    }

    method IsCrdRequired(key: string) returns (required: bool)
      ensures required == (key in crds)
    {
      return key in crds;
    }

    method SetCrdExists(key: string, val: bool)
      modifies this
      ensures crds == old(crds)[key := val]
    {
      crds := crds[key := val];
    }

    method AllCrdsExist() returns (all: bool)
      ensures all == AllExist(crds)
    {
      all := true;
      var todo := crds.Keys;
      while todo != {}
        invariant todo <= crds.Keys
        invariant all == forall n <- crds :: n in todo || crds[n]
        decreases |todo|
      {
        var n :| n in todo;
        all := all && crds[n];
        todo := todo - {n};
      }
    }

    method UpdateConditions() returns (err: Option<Error>)
      modifies cluster
      ensures Conditions(cluster.world, err) == SetConditions(old(cluster.world), cluster.env)
    {
      var all := cluster.ListInstances();
      if all.Err? {
        return Some(all.error);
      }
      if all.value.1 > 1 {
        return Some(Unavailable("multiple TektonTasks CRs in single namespace"));
      }
      if all.value.0.None? {
        return None;
      }
      var item := all.value.0.value;
      var res := cluster.UpdateInstanceStatus(item.(status := Aggregated(cluster.env.cfg, item.status, item.gen, [])));
      return if res.Err? then Some(res.error) else None;
    }

    method Reconcile(name: string, lookup: Lookup) returns (finished: Result<bool>)
      modifies this, cluster
      ensures GateOut(cluster.world, crds, finished)
           == GateStep(old(cluster.world), cluster.env, old(crds), name, lookup)
    {
      var err := UpdateConditions();
      if err.Some? {
        return Err(err.value);
      }
      var crdExists := true;
      if lookup.LookupFailed? {
        return Err(lookup.error);
      }
      if lookup.Missing? {
        crdExists := false;
      } else if lookup.terminating {
        crdExists := false;
      }
      var required := IsCrdRequired(name);
      if required {
        SetCrdExists(name, crdExists);
      }
      var all := AllCrdsExist();
      return Ok(all);
    }
  }
}

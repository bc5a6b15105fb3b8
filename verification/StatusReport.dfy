/** The status of the CR: conditions, and how the results of a pass become one status
    (controllers/tektontasks_controller.go). */
module StatusReport {
  import opened Kube
  import opened Resource

  // ---------- conditions ----------

  /** The library's SetStatusCondition: updates the first condition of the type, or appends one. */
  function SetCondition(conditions: seq<Condition>, c: Condition): seq<Condition> {
    if conditions == [] then [c]
    else if conditions[0].typ == c.typ then [c] + conditions[1..]
    else [conditions[0]] + SetCondition(conditions[1..], c)
  }

  /** The library's FindStatusCondition. */
  function FindCondition(conditions: seq<Condition>, typ: ConditionType): Option<Condition> {
    if conditions == [] then None
    else if conditions[0].typ == typ then Some(conditions[0])
    else FindCondition(conditions[1..], typ)
  }

  predicate Holds(conditions: seq<Condition>, typ: ConditionType, status: Truth) {
    FindCondition(conditions, typ).Some? && FindCondition(conditions, typ).value.status == status
  }

  ghost predicate UniqueTypes(conditions: seq<Condition>) {
    forall i, j | 0 <= i < j < |conditions| :: conditions[i].typ != conditions[j].typ
  }

  lemma {:induction false} SetConditionFinds(conditions: seq<Condition>, c: Condition, typ: ConditionType)
    ensures FindCondition(SetCondition(conditions, c), typ)
         == if typ == c.typ then Some(c) else FindCondition(conditions, typ)
  {
    if conditions != [] && conditions[0].typ != c.typ {
      SetConditionFinds(conditions[1..], c, typ);
    }
  }

  lemma {:induction false} SetConditionTypes(conditions: seq<Condition>, c: Condition)
    ensures var next := SetCondition(conditions, c);
            && |conditions| <= |next| <= |conditions| + 1
            && (forall i | 0 <= i < |conditions| :: next[i].typ == conditions[i].typ)
            && (|next| > |conditions| ==> next[|conditions|].typ == c.typ
                                          && forall i | 0 <= i < |conditions| :: conditions[i].typ != c.typ)
  {
    if conditions != [] && conditions[0].typ != c.typ {
      SetConditionTypes(conditions[1..], c);
    }
  }

  lemma SetConditionUnique(conditions: seq<Condition>, c: Condition)
    requires UniqueTypes(conditions)
    ensures UniqueTypes(SetCondition(conditions, c))
  {
    SetConditionTypes(conditions, c);
  }

  /** All three conditions set one after the other. */
  function SetThree(conditions: seq<Condition>, a: Condition, p: Condition, d: Condition): seq<Condition> {
    SetCondition(SetCondition(SetCondition(conditions, a), p), d)
  }

  lemma SetThreeFinds(conditions: seq<Condition>, a: Condition, p: Condition, d: Condition)
    requires a.typ == Available && p.typ == Progressing && d.typ == Degraded
    ensures var next := SetThree(conditions, a, p, d);
            && FindCondition(next, Available) == Some(a)
            && FindCondition(next, Progressing) == Some(p)
            && FindCondition(next, Degraded) == Some(d)
            && (UniqueTypes(conditions) ==> UniqueTypes(next))
  {
    var c1 := SetCondition(conditions, a);
    var c2 := SetCondition(c1, p);
    forall typ: ConditionType
      ensures FindCondition(SetCondition(c2, d), typ)
           == if typ == Degraded then Some(d) else if typ == Progressing then Some(p) else Some(a)
    {
      SetConditionFinds(conditions, a, typ);
      SetConditionFinds(c1, p, typ);
      SetConditionFinds(c2, d, typ);
    }
    if UniqueTypes(conditions) {
      SetConditionUnique(conditions, a);
      SetConditionUnique(c1, p);
      SetConditionUnique(c2, d);
    }
  }

  /** A deployed CR is available and neither progressing nor degraded, and no condition is there twice. */
  ghost predicate Coherent(s: Status) {
    && UniqueTypes(s.conditions)
    && (s.phase == Deployed ==>
          && Holds(s.conditions, Available, True)
          && Holds(s.conditions, Progressing, False)
          && Holds(s.conditions, Degraded, False))
  }

  // ---------- the statuses the controller writes ----------

  function Unhealthy(s: Status, message: string): seq<Condition> {
    SetThree(s.conditions, Condition(Available, False, message), Condition(Progressing, True, message),
             Condition(Degraded, True, message))
  }

  function DeployingStatus(s: Status, gen: nat): Status {
    s.(phase := Deploying, observedGeneration := gen)
  }

  function DeletingStatus(s: Status, gen: nat): Status {
    s.(phase := Deleting, observedGeneration := gen,
       conditions := Unhealthy(s, "Deleting Tekton tasks resources"))
  }

  function DeletedStatus(s: Status, gen: nat): Status {
    s.(phase := Deleted, observedGeneration := gen)
  }

  function PausedStatus(s: Status, gen: nat): Status {
    s.(paused := true, observedGeneration := gen)
  }

  function SetUnlessEqual(conditions: seq<Condition>, c: Condition): seq<Condition> {
    if Holds(conditions, c.typ, c.status) then conditions else SetCondition(conditions, c)
  }

  function PreStatus(cfg: Config, s: Status, gen: nat): Status {
    var message := "Reconciling Tekton tasks resources";
    var c1 := SetUnlessEqual(s.conditions, Condition(Available, False, message));
    var c2 := SetUnlessEqual(c1, Condition(Progressing, True, message));
    s.(phase := Deploying, observedGeneration := gen, operatorVersion := cfg.operatorVersion,
       targetVersion := cfg.operatorVersion, paused := false,
       conditions := SetUnlessEqual(c2, Condition(Degraded, True, message)))
  }

  function ErrorText(e: Error): string {
    match e
    case NotFound => "Error: not found"
    case Conflict => "Error: conflict"
    case AlreadyExists => "Error: already exists"
    case Unavailable(message) => "Error: " + message
    case Panicked => "Error: panic"
  }

  function ErrorStatus(s: Status, e: Error): Status {
    s.(phase := Deploying, conditions := Unhealthy(s, ErrorText(e)))
  }

  function MultipleStatus(s: Status): Status {
    var message := "there are multiple CRs deployed";
    s.(conditions := SetThree(s.conditions, Condition(Available, False, message),
                              Condition(Progressing, False, message), Condition(Degraded, True, message)))
  }

  /** The three conditions hold with these truth values. */
  predicate Reads(s: Status, available: Truth, progressing: Truth, degraded: Truth) {
    && Holds(s.conditions, Available, available) && Holds(s.conditions, Progressing, progressing)
    && Holds(s.conditions, Degraded, degraded)
  }

  lemma SetUnlessEqualHolds(conditions: seq<Condition>, c: Condition, typ: ConditionType)
    ensures var next := SetUnlessEqual(conditions, c);
            && Holds(next, c.typ, c.status)
            && (typ != c.typ ==> FindCondition(next, typ) == FindCondition(conditions, typ))
            && (Holds(conditions, c.typ, c.status) ==> next == conditions)
  {
    SetConditionFinds(conditions, c, typ);
    SetConditionFinds(conditions, c, c.typ);
  }

  lemma ThreeHold(conditions: seq<Condition>, a: Condition, p: Condition, d: Condition)
    requires a.typ == Available && p.typ == Progressing && d.typ == Degraded
    ensures var next := SetThree(conditions, a, p, d);
            && Holds(next, Available, a.status) && Holds(next, Progressing, p.status) && Holds(next, Degraded, d.status)
  {
    SetThreeFinds(conditions, a, p, d);
    hide SetThree, UniqueTypes;
  }

  /** What the conditions say after each write: nothing is available while deploying, deleting or failing; with
      several CRs nothing progresses either; and before the operands are reconciled a condition that already
      says so keeps its message. */
  lemma ConditionsWritten(cfg: Config, s: Status, gen: nat, e: Error)
    ensures Reads(PreStatus(cfg, s, gen), False, True, True)
    ensures Reads(DeletingStatus(s, gen), False, True, True)
    ensures Reads(ErrorStatus(s, e), False, True, True)
    ensures Reads(MultipleStatus(s), False, False, True) && MultipleStatus(s).phase == s.phase
    ensures Reads(s, False, True, True) ==> PreStatus(cfg, s, gen).conditions == s.conditions
    ensures PausedStatus(s, gen).conditions == DeletedStatus(s, gen).conditions == s.conditions
  {
    hide Holds, SetUnlessEqual, SetThree;
    var message := "Reconciling Tekton tasks resources";
    var c1 := SetUnlessEqual(s.conditions, Condition(Available, False, message));
    var c2 := SetUnlessEqual(c1, Condition(Progressing, True, message));
    SetUnlessEqualHolds(s.conditions, Condition(Available, False, message), Available);
    SetUnlessEqualHolds(c1, Condition(Progressing, True, message), Available);
    SetUnlessEqualHolds(c2, Condition(Degraded, True, message), Available);
    SetUnlessEqualHolds(c2, Condition(Degraded, True, message), Progressing);
    SameFound(c1, c2, Available, False);
    SameFound(c2, PreStatus(cfg, s, gen).conditions, Available, False);
    SameFound(c2, PreStatus(cfg, s, gen).conditions, Progressing, True);
    var deleting, failing, many := "Deleting Tekton tasks resources", ErrorText(e), "there are multiple CRs deployed";
    ThreeHold(s.conditions, Condition(Available, False, deleting), Condition(Progressing, True, deleting),
              Condition(Degraded, True, deleting));
    ThreeHold(s.conditions, Condition(Available, False, failing), Condition(Progressing, True, failing),
              Condition(Degraded, True, failing));
    ThreeHold(s.conditions, Condition(Available, False, many), Condition(Progressing, False, many),
              Condition(Degraded, True, many));
  }

  lemma SameFound(a: seq<Condition>, b: seq<Condition>, typ: ConditionType, status: Truth)
    requires FindCondition(a, typ) == FindCondition(b, typ)
    ensures Holds(a, typ, status) == Holds(b, typ, status)
  {
  }

  // ---------- aggregation ----------

  /** One aspect of health, each with its own condition. */
  datatype Aspect = Unavailability | Progress | Degradation

  function Complaint(a: Aspect, r: ReconcileResult): Option<string> {
    match a
    case Unavailability => r.status.notAvailable
    case Progress => r.status.progressing
    case Degradation => r.status.degraded
  }

  function Troubled(a: Aspect, results: seq<ReconcileResult>): (bad: seq<ReconcileResult>)
    ensures forall r :: r in bad <==> r in results && Complaint(a, r).Some?
  {
    if results == [] then []
    else if Complaint(a, results[0]).Some? then [results[0]] + Troubled(a, results[1..])
    else Troubled(a, results[1..])
  }

  function Decimal(n: nat): string {
    if n < 10 then ["0123456789"[n]] else Decimal(n / 10) + ["0123456789"[n % 10]]
  }

  function PrefixResource(message: string, k: Key): string {
    KindName(k.kind) + " " + k.ns + "/" + k.name + ": " + message
  }

  function ConditionTypeOf(a: Aspect): ConditionType {
    match a
    case Unavailability => Available
    case Progress => Progressing
    case Degradation => Degraded
  }

  function GoodMessage(a: Aspect): string {
    match a
    case Unavailability => "Tekton operator is available"
    case Progress => "No Tekton tasks resources are progressing"
    case Degradation => "No Tekton tasks resources are degraded"
  }

  function ManyMessage(a: Aspect, n: nat): string {
    Decimal(n) + match a
                 case Unavailability => " Tekton tasks resources are not available"
                 case Progress => " Tekton tasks resources are progressing"
                 case Degradation => " Tekton tasks resources are degraded"
  }

  /** The condition that sums up the complaints of one aspect. Available is the negated one. */
  function Summary(a: Aspect, bad: seq<ReconcileResult>): Condition
    requires forall r <- bad :: Complaint(a, r).Some?
  {
    var troubled := if a.Unavailability? then False else True;
    var fine := if a.Unavailability? then True else False;
    if |bad| == 0 then Condition(ConditionTypeOf(a), fine, GoodMessage(a))
    else if |bad| == 1 then
      Condition(ConditionTypeOf(a), troubled, PrefixResource(Complaint(a, bad[0]).value, bad[0].resource))
    else Condition(ConditionTypeOf(a), troubled, ManyMessage(a, |bad|))
  }

  function Aggregated(cfg: Config, s: Status, gen: nat, results: seq<ReconcileResult>): Status {
    var na, pr, de := Troubled(Unavailability, results), Troubled(Progress, results), Troubled(Degradation, results);
    var s1 := s.(observedGeneration := gen,
                 conditions := SetThree(s.conditions, Summary(Unavailability, na), Summary(Progress, pr),
                                        Summary(Degradation, de)));
    if |na| == 0 && |pr| == 0 && |de| == 0
    then s1.(phase := Deployed, observedVersion := cfg.operatorVersion)
    else s1.(phase := Deploying)
  }

  lemma SummaryReads(a: Aspect, results: seq<ReconcileResult>)
    ensures var bad := Troubled(a, results);
            && Summary(a, bad).typ == ConditionTypeOf(a)
            && (Summary(a, bad).status == (if a.Unavailability? then False else True)
                <==> exists r <- results :: Complaint(a, r).Some?)
            && (|bad| == 0 <==> forall r <- results :: Complaint(a, r).None?)
  {
    hide Troubled;
    AnyTrouble(a, results);
  }

  /** The aggregated status says Deployed exactly when every result is a success, and each condition is
      true or false exactly when some result complains about its aspect. */
  lemma AggregationExact(cfg: Config, s: Status, gen: nat, results: seq<ReconcileResult>)
    ensures var t := Aggregated(cfg, s, gen, results);
            && t.phase == (if forall r <- results :: IsSuccess(r) then Deployed else Deploying)
            && (Holds(t.conditions, Available, False) <==> exists r <- results :: r.status.notAvailable.Some?)
            && (Holds(t.conditions, Available, True) <==> forall r <- results :: r.status.notAvailable.None?)
            && (Holds(t.conditions, Progressing, True) <==> exists r <- results :: r.status.progressing.Some?)
            && (Holds(t.conditions, Degraded, True) <==> exists r <- results :: r.status.degraded.Some?)
            && (UniqueTypes(s.conditions) ==> Coherent(t))
            && t.observedGeneration == gen
  {
    hide Troubled, Summary, FindCondition, SetThree, UniqueTypes;
    var na, pr, de := Troubled(Unavailability, results), Troubled(Progress, results), Troubled(Degradation, results);
    SummaryReads(Unavailability, results);
    SummaryReads(Progress, results);
    SummaryReads(Degradation, results);
    SetThreeFinds(s.conditions, Summary(Unavailability, na), Summary(Progress, pr), Summary(Degradation, de));
    assert (forall r <- results :: IsSuccess(r)) <==> |na| == 0 && |pr| == 0 && |de| == 0;
  }

  lemma AnyTrouble(a: Aspect, results: seq<ReconcileResult>)
    ensures |Troubled(a, results)| == 0 <==> forall r <- results :: Complaint(a, r).None?
    ensures |Troubled(a, results)| > 0 <==> exists r <- results :: Complaint(a, r).Some?
  {
    var bad := Troubled(a, results);
    if |bad| > 0 {
      assert bad[0] in results && Complaint(a, bad[0]).Some?;
    }
  }

  lemma {:induction false} TroubledCount(a: Aspect, results: seq<ReconcileResult>, r: ReconcileResult)
    ensures multiset(Troubled(a, results))[r] == if Complaint(a, r).Some? then multiset(results)[r] else 0
  {
    if results != [] {
      TroubledCount(a, results[1..], r);
      assert results == [results[0]] + results[1..];
    }
  }

  // ---------- messages ----------

  /** What a string of digits stands for. */
  function ValueOf(digits: string): nat
    requires forall i | 0 <= i < |digits| :: '0' <= digits[i] <= '9'
  {
    if digits == [] then 0
    else 10 * ValueOf(digits[..|digits| - 1]) + (digits[|digits| - 1] as int - '0' as int)
  }

  /** Numbers are written in decimal, without leading zeros. */
  lemma {:induction false} DecimalIsDecimal(n: nat)
    ensures var s := Decimal(n);
            && |s| > 0 && (forall i | 0 <= i < |s| :: '0' <= s[i] <= '9') && ValueOf(s) == n && (n > 0 ==> s[0] != '0')
  {
    DigitIs(n % 10);
    if n >= 10 {
      DecimalIsDecimal(n / 10);
      assert Decimal(n)[..|Decimal(n)| - 1] == Decimal(n / 10);
    } else {
      assert Decimal(n)[..0] == [];
    }
  }

  lemma DigitIs(n: nat)
    requires n < 10
    ensures "0123456789"[n] as int == '0' as int + n
  {
  }

  /** What a condition says: that all is well; what is wrong with the one resource, with its kind, namespace and
      name; or how many there are. */
  predicate Says(c: Condition, bad: seq<ReconcileResult>, a: Aspect, good: string, many: string) {
    c.message == if |bad| == 0 then good
                 else if |bad| == 1 && Complaint(a, bad[0]).Some? then
                   KindName(bad[0].resource.kind) + " " + bad[0].resource.ns + "/" + bad[0].resource.name + ": "
                   + Complaint(a, bad[0]).value
                 else Decimal(|bad|) + many
  }

  /** The messages of the aggregated status. */
  lemma MessagesExact(cfg: Config, s: Status, gen: nat, results: seq<ReconcileResult>)
    ensures var t := Aggregated(cfg, s, gen, results).conditions;
            var na, pr, de := FindCondition(t, Available), FindCondition(t, Progressing), FindCondition(t, Degraded);
            && na.Some? && pr.Some? && de.Some?
            && Says(na.value, Troubled(Unavailability, results), Unavailability,
                    "Tekton operator is available", " Tekton tasks resources are not available")
            && Says(pr.value, Troubled(Progress, results), Progress,
                    "No Tekton tasks resources are progressing", " Tekton tasks resources are progressing")
            && Says(de.value, Troubled(Degradation, results), Degradation,
                    "No Tekton tasks resources are degraded", " Tekton tasks resources are degraded")
  {
    hide Troubled, FindCondition, SetThree, UniqueTypes, KindName, Decimal;
    var na, pr, de := Troubled(Unavailability, results), Troubled(Progress, results), Troubled(Degradation, results);
    SetThreeFinds(s.conditions, Summary(Unavailability, na), Summary(Progress, pr), Summary(Degradation, de));
    SummarySays(Unavailability, na);
    SummarySays(Progress, pr);
    SummarySays(Degradation, de);
  }

  /** All three conditions say this. */
  predicate AllSay(conditions: seq<Condition>, message: string) {
    forall typ: ConditionType ::
      FindCondition(conditions, typ).Some? && FindCondition(conditions, typ).value.message == message
  }

  /** The messages of the other writes. */
  lemma StepMessages(s: Status, gen: nat, e: Error)
    ensures AllSay(DeletingStatus(s, gen).conditions, "Deleting Tekton tasks resources")
    ensures AllSay(MultipleStatus(s).conditions, "there are multiple CRs deployed")
    ensures AllSay(ErrorStatus(s, e).conditions, ErrorText(e)) && "Error: " <= ErrorText(e)
  {
    hide SetThree, AllSay;
    var deleting, failing, many := "Deleting Tekton tasks resources", ErrorText(e), "there are multiple CRs deployed";
    ThreeSay(s.conditions, Condition(Available, False, deleting), Condition(Progressing, True, deleting),
             Condition(Degraded, True, deleting));
    ThreeSay(s.conditions, Condition(Available, False, failing), Condition(Progressing, True, failing),
             Condition(Degraded, True, failing));
    ThreeSay(s.conditions, Condition(Available, False, many), Condition(Progressing, False, many),
             Condition(Degraded, True, many));
  }

  /** Before the operands are reconciled, a condition that already has its truth value keeps its message; any
      other one says that reconciling has begun. */
  lemma ReconcilingMessages(cfg: Config, s: Status, gen: nat, typ: ConditionType)
    ensures var was, now := FindCondition(s.conditions, typ), FindCondition(PreStatus(cfg, s, gen).conditions, typ);
            var truth := if typ == Available then False else True;
            && now.Some? && now.value.status == truth
            && now.value.message == (if was.Some? && was.value.status == truth then was.value.message
                                    else "Reconciling Tekton tasks resources")
  {
    hide FindCondition, SetCondition;
    var message := "Reconciling Tekton tasks resources";
    var c1 := SetUnlessEqual(s.conditions, Condition(Available, False, message));
    var c2 := SetUnlessEqual(c1, Condition(Progressing, True, message));
    SetConditionFinds(s.conditions, Condition(Available, False, message), typ);
    SetConditionFinds(c1, Condition(Progressing, True, message), typ);
    SetConditionFinds(c2, Condition(Degraded, True, message), typ);
  }

  lemma ThreeSay(conditions: seq<Condition>, a: Condition, p: Condition, d: Condition)
    requires a.typ == Available && p.typ == Progressing && d.typ == Degraded
    requires a.message == p.message == d.message
    ensures AllSay(SetThree(conditions, a, p, d), a.message)
  {
    hide FindCondition, SetThree, UniqueTypes;
    SetThreeFinds(conditions, a, p, d);
    var next := SetThree(conditions, a, p, d);
    forall typ: ConditionType
      ensures FindCondition(next, typ).Some? && FindCondition(next, typ).value.message == a.message
    {
      match typ
      case Available =>
      case Progressing =>
      case Degraded =>
    }
  }

  lemma SummarySays(a: Aspect, bad: seq<ReconcileResult>)
    requires forall r <- bad :: Complaint(a, r).Some?
    ensures Says(Summary(a, bad), bad, a, GoodMessage(a),
                 match a
                 case Unavailability => " Tekton tasks resources are not available"
                 case Progress => " Tekton tasks resources are progressing"
                 case Degradation => " Tekton tasks resources are degraded")
  {
    hide KindName, Decimal;
  }

  /** The order of the results does not matter, down to the messages. */
  lemma {:induction false} AggregationUnordered(cfg: Config, s: Status, gen: nat, a: seq<ReconcileResult>,
          b: seq<ReconcileResult>)
    requires multiset(a) == multiset(b)
    ensures Aggregated(cfg, s, gen, a) == Aggregated(cfg, s, gen, b)
  {
    SummaryUnordered(Unavailability, a, b);
    SummaryUnordered(Progress, a, b);
    SummaryUnordered(Degradation, a, b);
  }

  lemma SummaryUnordered(x: Aspect, a: seq<ReconcileResult>, b: seq<ReconcileResult>)
    requires multiset(a) == multiset(b)
    ensures |Troubled(x, a)| == |Troubled(x, b)|
    ensures Summary(x, Troubled(x, a)) == Summary(x, Troubled(x, b))
  {
    var ta, tb := Troubled(x, a), Troubled(x, b);
    forall r: ReconcileResult
      ensures multiset(ta)[r] == multiset(tb)[r]
    {
      TroubledCount(x, a, r);
      TroubledCount(x, b, r);
    }
    assert multiset(ta) == multiset(tb);
    assert |ta| == |multiset(ta)| == |multiset(tb)| == |tb|;
    if |ta| == 1 {
      assert ta == [ta[0]] && tb == [tb[0]];
      assert ta[0] in multiset(tb);
    }
  }

  /** The loop of updateStatus that sorts the results by aspect. */
  method SplitResults(results: seq<ReconcileResult>)
    returns (notAvailable: seq<ReconcileResult>, progressing: seq<ReconcileResult>, degraded: seq<ReconcileResult>)
    ensures notAvailable == Troubled(Unavailability, results)
    ensures progressing == Troubled(Progress, results)
    ensures degraded == Troubled(Degradation, results)
  {
    notAvailable, progressing, degraded := [], [], [];
    for i := 0 to |results|
      invariant notAvailable == Troubled(Unavailability, results[..i])
      invariant progressing == Troubled(Progress, results[..i])
      invariant degraded == Troubled(Degradation, results[..i])
    {
      var r := results[i];
      assert results[..i + 1] == results[..i] + [r];
      TroubledAppend(Unavailability, results[..i], r);
      TroubledAppend(Progress, results[..i], r);
      TroubledAppend(Degradation, results[..i], r);
      if r.status.notAvailable != None {
        notAvailable := notAvailable + [r];
      }
      if r.status.progressing != None {
        progressing := progressing + [r];
      }
      if r.status.degraded != None {
        degraded := degraded + [r];
      }
    }
    assert results[..|results|] == results;
  }

  lemma {:induction false} TroubledAppend(a: Aspect, results: seq<ReconcileResult>, r: ReconcileResult)
    ensures Troubled(a, results + [r]) == Troubled(a, results) + if Complaint(a, r).Some? then [r] else []
  {
    if results == [] {
      assert [r][1..] == [];
    } else {
      assert (results + [r])[1..] == results[1..] + [r];
      TroubledAppend(a, results[1..], r);
    }
  }
}

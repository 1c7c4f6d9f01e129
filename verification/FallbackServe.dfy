/**
  * What a whole fallback walk guarantees its caller: which upstream attempts
  * are made, who holds an admission slot when, and how exhaustion is reported.
  */
module FallbackServe {
  import opened Decimal
  import opened FallbackGraph
  import opened FallbackWalk

  datatype ErrorKind =
    BudgetUnverified | BudgetExhausted | ProviderUnavailable | ProviderTimeout | ProviderError

  datatype Failure = Failure(status: int, kind: ErrorKind, retryAfter: int)

  datatype Response = Relayed(visit: Visit, settle: bool) | Refusal(failure: Failure)

  // ---------------------------------------------------------------- the entry point

  /** The candidates of a request in the order the walk reaches them. */
  function Candidates(q: Request): seq<Visit>
    requires WellFormed(q)
  {
    Subtree(q, q.primary, q.model, {}).visits
  }

  ghost function Outcome(q: Request): Played
    requires WellFormed(q)
  {
    Play(q, Candidates(q), q.maxDepth)
  }

  function ExhaustionOf(observed: set<FailClass>, retry: int): Failure {
    if observed != {} && observed <= {OverBudget, BudgetUnavailable} then
      if BudgetUnavailable in observed then Failure(503, BudgetUnverified, 1)
      else Failure(429, BudgetExhausted, retry)
    else if observed == {Connect} then Failure(503, ProviderUnavailable, 0)
    else if observed == {Timeout} then Failure(504, ProviderTimeout, 0)
    else Failure(502, ProviderError, 0)
  }

  lemma Singleton(s: set<FailClass>, x: FailClass)
    ensures |s| == 1 && x in s <==> s == {x}
  {
    if |s| == 1 && x in s {
      assert |s - {x}| == 0;
    }
  }

  /** Maps the failure classes seen across the walk to one error. */
  method ExhaustionError(observed: set<FailClass>, maxRetryAfter: int) returns (f: Failure)
    ensures f == ExhaustionOf(observed, maxRetryAfter)
  {
    Singleton(observed, Connect);
    Singleton(observed, Timeout);
    var budgetOnly := |observed| > 0;
    var todo := observed;
    while todo != {} && budgetOnly
      invariant todo <= observed
      invariant budgetOnly ==> observed != {} && observed - todo <= {OverBudget, BudgetUnavailable}
      invariant !budgetOnly ==> observed == {} || !(observed <= {OverBudget, BudgetUnavailable})
      decreases |todo|
    {
      var c :| c in todo;
      todo := todo - {c};
      if c != OverBudget && c != BudgetUnavailable {
        budgetOnly := false;
      }
    }
    if budgetOnly && BudgetUnavailable in observed {
      f := Failure(503, BudgetUnverified, 1);
    } else if budgetOnly {
      f := Failure(429, BudgetExhausted, maxRetryAfter);
    } else if |observed| == 1 && Connect in observed {
      f := Failure(503, ProviderUnavailable, 0);
    } else if |observed| == 1 && Timeout in observed {
      f := Failure(504, ProviderTimeout, 0);
    } else {
      f := Failure(502, ProviderError, 0);
    }
  }

  /** The depth-cap table: the error each combination of observed classes is reported as. */
  lemma ExhaustionTable(observed: set<FailClass>, retry: int)
    ensures
      var f := ExhaustionOf(observed, retry);
      var budgetOnly := observed != {} && forall c :: c in observed ==> c == OverBudget || c == BudgetUnavailable;
      && (f.kind == BudgetUnverified <==> budgetOnly && BudgetUnavailable in observed)
      && (f.kind == BudgetExhausted <==> budgetOnly && BudgetUnavailable !in observed)
      && (f.kind == ProviderUnavailable <==> observed == {Connect})
      && (f.kind == ProviderTimeout <==> observed == {Timeout})
      && f.status == (match f.kind
                      case BudgetExhausted => 429
                      case ProviderError => 502
                      case BudgetUnverified => 503
                      case ProviderUnavailable => 503
                      case ProviderTimeout => 504)
      && f.retryAfter == (match f.kind
                          case BudgetUnverified => 1
                          case BudgetExhausted => retry
                          case _ => 0)
  {
    if observed != {} && observed <= {OverBudget, BudgetUnavailable} {
      assert Connect !in observed && Timeout !in observed;
    }
  }

  /** The forwarding path of the proxy, from an admitted primary to a response. */
  method Serve(q: Request) returns (r: Response, ghost trace: seq<Step>)
    requires WellFormed(q)
    ensures trace == Outcome(q).trace
    ensures match Outcome(q).winner
            case Some(v) => r == Relayed(v, HasSlot(q, v))
            case None => r == Refusal(ExhaustionOf(Outcome(q).observed, Outcome(q).retry))
  {
    hide Play, Subtree, Turn, HasSlot, ExhaustionOf;
    var st := new WalkState(q);
    assert st.CandidateModel(q.primary) == q.model;
    var res := st.TryWithFallbacks(q.primary);
    ThenNothing(Outcome(q));
    trace := st.trace;
    if res.won.Some? {
      r := Relayed(res.won.value, res.settle);
    } else {
      var f := ExhaustionError(st.observed, st.maxRetryAfter);
      r := Refusal(f);
    }
  }

  // ---------------------------------------------------------------- which attempts are made

  function AttemptsOf(trace: seq<Step>): seq<Visit> {
    if trace == [] then []
    else (match trace[0] {
            case Attempted(v) => [v]
            case Admitted(_) => []
            case Released(_) => []
          }) + AttemptsOf(trace[1..])
  }

  lemma {:induction false} AttemptsConcat(a: seq<Step>, b: seq<Step>)
    ensures AttemptsOf(a + b) == AttemptsOf(a) + AttemptsOf(b)
  {
    if a == [] {
      assert a + b == b;
    } else {
      assert (a + b)[1..] == a[1..] + b;
      AttemptsConcat(a[1..], b);
    }
  }

  /** The candidates within the cap. */
  function Charged(visits: seq<Visit>, k: int): seq<Visit> {
    visits[..Charge(|visits|, k)]
  }

  /** The charged candidates the budget lets through. */
  function Allowed(q: Request, visits: seq<Visit>): seq<Visit> {
    if visits == [] then []
    else (if Refused(q, visits[0]) then [] else [visits[0]]) + Allowed(q, visits[1..])
  }

  /** Up to and including the first answer that ends a walk. */
  function UpToEnd(q: Request, visits: seq<Visit>): seq<Visit> {
    if visits == [] then []
    else [visits[0]] + if Ends(ReplyOf(q, visits[0])) then [] else UpToEnd(q, visits[1..])
  }

  lemma AttemptsOfOne(s: Step)
    ensures AttemptsOf([s]) == if s.Attempted? then [s.visit] else []
  {
    assert [s][1..] == [];
  }

  lemma TurnAttempts(q: Request, v: Visit)
    ensures AttemptsOf(Turn(q, v).trace) == if Refused(q, v) then [] else [v]
  {
    hide Ends, HasSlot, ClassOf;
    if !Refused(q, v) {
      var before := if HasSlot(q, v) && v.provider != q.primary then [Admitted(v.provider)] else [];
      AttemptsOfOne(Admitted(v.provider));
      AttemptsOfOne(Attempted(v));
      AttemptsOfOne(Released(v.provider));
      AttemptsConcat(before, [Attempted(v)]);
      AttemptsConcat(Entering(q, v), Leaving(q, v));
    }
  }

  /** The candidates within the cap, less the refused ones, up to the first ending answer. */
  function Cut(q: Request, visits: seq<Visit>, k: int): seq<Visit> {
    UpToEnd(q, Allowed(q, Charged(visits, k)))
  }

  lemma CutStep(q: Request, visits: seq<Visit>, k: int)
    requires visits != [] && k > 0
    ensures Cut(q, visits, k) ==
            var rest := Cut(q, visits[1..], k - 1);
            if Refused(q, visits[0]) then rest
            else [visits[0]] + if Ends(ReplyOf(q, visits[0])) then [] else rest
  {
    hide Ends, ReplyOf, Refused;
    var v, rest := visits[0], Charged(visits[1..], k - 1);
    assert Charged(visits, k) == [v] + rest && ([v] + rest)[1..] == rest;
    assert [] + Allowed(q, rest) == Allowed(q, rest);
    assert ([v] + Allowed(q, rest))[1..] == Allowed(q, rest);
  }

  /** The last of the attempts, when its answer ends the walk. */
  function WinnerOf(q: Request, tried: seq<Visit>): Option<Visit> {
    if tried != [] && Ends(ReplyOf(q, tried[|tried| - 1])) then Some(tried[|tried| - 1]) else None
  }

  /** The upstream attempts of a walk are that cut. */
  lemma {:induction false} AttemptsAreTheCut(q: Request, visits: seq<Visit>, k: int)
    ensures AttemptsOf(Play(q, visits, k).trace) == Cut(q, visits, k)
    decreases |visits|
  {
    hide Ends, Turn, ReplyOf, Cut, AttemptsOf;
    if visits == [] || k <= 0 {
      NothingIsCut(q, visits, k);
    } else {
      AttemptsAreTheCut(q, visits[1..], k - 1);
      CutStep(q, visits, k);
      TurnAttempts(q, visits[0]);
      TurnWinner(q, visits[0]);
      AttemptsConcat(Turn(q, visits[0]).trace, Play(q, visits[1..], k - 1).trace);
    }
  }

  /** Its winner is the last attempt, if that one's answer ends the walk. */
  lemma {:induction false} WinnerIsLast(q: Request, visits: seq<Visit>, k: int)
    ensures Play(q, visits, k).winner == WinnerOf(q, Cut(q, visits, k))
    decreases |visits|
  {
    hide Ends, Turn, ReplyOf, Cut;
    if visits == [] || k <= 0 {
      NothingIsCut(q, visits, k);
    } else {
      WinnerIsLast(q, visits[1..], k - 1);
      CutStep(q, visits, k);
      TurnWinner(q, visits[0]);
    }
  }

  lemma NothingIsCut(q: Request, visits: seq<Visit>, k: int)
    requires visits == [] || k <= 0
    ensures Cut(q, visits, k) == [] && AttemptsOf([]) == []
  {
    assert Charged(visits, k) == [];
  }

  lemma TurnWinner(q: Request, v: Visit)
    ensures Turn(q, v).winner == if !Refused(q, v) && Ends(ReplyOf(q, v)) then Some(v) else None
  {
  }

  // ---------------------------------------------------------------- no provider twice

  ghost predicate FreshVisits(q: Request, r: Preordered, seen: set<string>)
    requires q.primary in q.store
  {
    && (forall v :: v in r.visits ==>
          v.provider !in seen && v.provider in r.seen && v.provider in q.store
          && Eligible(q, q.store[v.provider], v.model))
    && (forall i, j :: 0 <= i < j < |r.visits| ==> r.visits[i].provider != r.visits[j].provider)
  }

  lemma {:induction false} SubtreeIsFresh(q: Request, name: string, model: string, seen: set<string>)
    requires WellFormed(q) && name in q.store
    ensures FreshVisits(q, Subtree(q, name, model, seen), seen)
    decreases q.store.Keys - seen, 0
  {
    hide Eligible;
    if name !in seen && Eligible(q, q.store[name], model) {
      ChildrenAreFresh(q, q.store[name].fallback, model, seen + {name});
    }
  }

  lemma {:induction false} ChildrenAreFresh(q: Request, edges: seq<Edge>, model: string, seen: set<string>)
    requires WellFormed(q)
    ensures FreshVisits(q, Children(q, edges, model, seen), seen)
    decreases q.store.Keys - seen, 1 + |edges|
  {
    hide Eligible, Subtree;
    if edges != [] {
      var last := |edges| - 1;
      ChildrenAreFresh(q, edges[..last], model, seen);
      var before := Children(q, edges[..last], model, seen);
      if edges[last].target in q.store {
        SubtreeIsFresh(q, edges[last].target, EdgeModel(edges[last], model), before.seen);
      }
    }
  }

  lemma {:induction false} AllowedWithin(q: Request, visits: seq<Visit>)
    requires forall i, j :: 0 <= i < j < |visits| ==> visits[i].provider != visits[j].provider
    ensures var a := Allowed(q, visits);
            && |a| <= |visits|
            && (forall v :: v in a ==> v in visits && !Refused(q, v))
            && (forall i, j :: 0 <= i < j < |a| ==> a[i].provider != a[j].provider)
  {
    hide Refused;
    if visits != [] {
      AllowedWithin(q, visits[1..]);
      forall v | v in Allowed(q, visits[1..]) ensures v.provider != visits[0].provider {
        var i :| 0 <= i < |visits[1..]| && visits[1..][i] == v;
        assert visits[i + 1] == v;
      }
    }
  }

  lemma {:induction false} UpToEndIsPrefix(q: Request, visits: seq<Visit>)
    ensures UpToEnd(q, visits) <= visits
    ensures forall i :: 0 <= i < |UpToEnd(q, visits)| - 1 ==> !Ends(ReplyOf(q, visits[i]))
  {
    hide Ends, ReplyOf;
    if visits != [] && !Ends(ReplyOf(q, visits[0])) {
      UpToEndIsPrefix(q, visits[1..]);
    }
  }

  /** The two wire formats the gateway translates between, by the types that speak them. */
  predicate SpeaksAnthropic(kind: string) { kind == "anthropic" }
  predicate SpeaksOpenAI(kind: string) { kind == "openai" || kind == "openai-compatible" }

  /** What its types and the request's format demand of a candidate: rule 12, and a translation where formats differ. */
  predicate MayServe(q: Request, first: string, kind: string, v: Visit) {
    && (v.provider != q.primary ==>
          || kind == first
          || (SpeaksOpenAI(first) && SpeaksOpenAI(kind))
          || ((SpeaksAnthropic(first) || SpeaksOpenAI(first)) && (SpeaksAnthropic(kind) || SpeaksOpenAI(kind))
              && q.inbound != ""))
    && (q.parsed && q.inbound != "" && ((SpeaksAnthropic(kind) && q.inbound != "anthropic")
                                        || (SpeaksOpenAI(kind) && q.inbound != "openai")) ==>
          q.translates(v.provider, v.model))
  }

  /** Eligibility without its code: namespace, model, types and translation. */
  lemma EligibleExactly(q: Request, v: Visit)
    requires WellFormed(q) && v.provider in q.store
    ensures Eligible(q, q.store[v.provider], v.model) <==>
            && v.provider in q.allowed && v.model in q.store[v.provider].models
            && MayServe(q, q.store[q.primary].kind, q.store[v.provider].kind, v)
  {
  }

  /**
    * On any graph, cyclic or not: every attempt goes to an eligible provider
    * with the model it was checked for, none is tried twice, the cap holds,
    * and nothing is tried after an answer that ends the walk.
    */
  lemma AttemptDiscipline(q: Request)
    requires WellFormed(q)
    ensures var tried := AttemptsOf(Outcome(q).trace);
            && |tried| <= Charge(|Candidates(q)|, q.maxDepth)
            && (forall v :: v in tried ==>
                  v in Candidates(q) && v.provider in q.store && Eligible(q, q.store[v.provider], v.model)
                  && !Refused(q, v))
            && (forall v :: v in tried ==>
                  v.provider in q.allowed && v.model in q.store[v.provider].models
                  && MayServe(q, q.store[q.primary].kind, q.store[v.provider].kind, v))
            && (forall i, j :: 0 <= i < j < |tried| ==> tried[i].provider != tried[j].provider)
            && (forall i :: 0 <= i < |tried| - 1 ==> !Ends(ReplyOf(q, tried[i])))
  {
    hide Eligible, Subtree, Play, Ends, Refused, UpToEnd, Allowed, ReplyOf;
    SubtreeIsFresh(q, q.primary, q.model, {});
    AttemptsAreTheCut(q, Candidates(q), q.maxDepth);
    AllowedWithin(q, Charged(Candidates(q), q.maxDepth));
    UpToEndIsPrefix(q, Allowed(q, Charged(Candidates(q), q.maxDepth)));
    forall v | v in AttemptsOf(Outcome(q).trace)
      ensures v in Candidates(q) && !Refused(q, v)
      ensures v.provider in q.allowed && v.model in q.store[v.provider].models
      ensures MayServe(q, q.store[q.primary].kind, q.store[v.provider].kind, v)
    {
      assert v in Allowed(q, Charged(Candidates(q), q.maxDepth));
      EligibleExactly(q, v);
    }
  }

  // ---------------------------------------------------------------- slots

  /** The slots in hand after a trace. */
  function HeldAfter(trace: seq<Step>, held: set<string>): set<string>
    decreases |trace|
  {
    if trace == [] then held
    else
      HeldAfter(trace[1..],
                match trace[0]
                case Admitted(p) => held + {p}
                case Attempted(_) => held
                case Released(p) => held - {p})
  }

  /** No slot but the candidate's own is in hand during an attempt, and only held slots are released. */
  predicate Linear(trace: seq<Step>, held: set<string>)
    decreases |trace|
  {
    trace == [] ||
    match trace[0]
    case Admitted(p) => held == {} && Linear(trace[1..], {p})
    case Attempted(v) => held <= {v.provider} && Linear(trace[1..], held)
    case Released(p) => p in held && Linear(trace[1..], held - {p})
  }

  lemma {:induction false} LinearConcat(a: seq<Step>, b: seq<Step>, held: set<string>)
    requires Linear(a, held) && Linear(b, HeldAfter(a, held))
    ensures Linear(a + b, held) && HeldAfter(a + b, held) == HeldAfter(b, HeldAfter(a, held))
    decreases |a|
  {
    if a == [] {
      assert a + b == b;
    } else {
      assert (a + b)[0] == a[0] && (a + b)[1..] == a[1..] + b;
      match a[0]
      case Admitted(p) =>
        assert held + {p} == {p};
        LinearConcat(a[1..], b, {p});
      case Attempted(v) => LinearConcat(a[1..], b, held);
      case Released(p) => LinearConcat(a[1..], b, held - {p});
    }
  }

  function SlotIf(q: Request, v: Visit): set<string> {
    if HasSlot(q, v) then {v.provider} else {}
  }

  /** One turn, entered with no slot or, for the primary, with its own. */
  lemma TurnIsLinear(q: Request, v: Visit, held: set<string>)
    requires held == if v.provider == q.primary then SlotIf(q, v) else {}
    ensures Linear(Turn(q, v).trace, held)
    ensures HeldAfter(Turn(q, v).trace, held) == if Turn(q, v).winner.Some? then SlotIf(q, v) else {}
  {
    hide Ends, ClassOf, RefusalClass, RefusalRetry;
    if !Refused(q, v) {
      var p := v.provider;
      var entering, leaving := Entering(q, v), Leaving(q, v);
      EnteringIsLinear(q, v, held);
      LeavingIsLinear(q, v);
      if !Ends(ReplyOf(q, v)) {
        LinearConcat(entering, leaving, held);
      }
    }
  }

  lemma AttemptIsLinear(v: Visit, held: set<string>)
    requires held <= {v.provider}
    ensures Linear([Attempted(v)], held) && HeldAfter([Attempted(v)], held) == held
  {
    assert [Attempted(v)][1..] == [];
  }

  lemma EnteringIsLinear(q: Request, v: Visit, held: set<string>)
    requires held == if v.provider == q.primary then SlotIf(q, v) else {}
    ensures Linear(Entering(q, v), held) && HeldAfter(Entering(q, v), held) == SlotIf(q, v)
  {
    hide HasSlot;
    var p := v.provider;
    if HasSlot(q, v) && p != q.primary {
      AttemptIsLinear(v, {p});
      var trace := [Admitted(p)] + [Attempted(v)];
      assert trace[1..] == [Attempted(v)];
      assert {} + {p} == {p};
      assert Entering(q, v) == trace;
    } else {
      AttemptIsLinear(v, held);
      assert Entering(q, v) == [Attempted(v)];
    }
  }

  lemma LeavingIsLinear(q: Request, v: Visit)
    ensures Linear(Leaving(q, v), SlotIf(q, v)) && HeldAfter(Leaving(q, v), SlotIf(q, v)) == {}
  {
    if HasSlot(q, v) {
      assert [Released(v.provider)][1..] == [];
      assert {v.provider} - {v.provider} == {};
    }
  }

  /** Candidates other than the primary, played with no slot in hand. */
  lemma {:induction false} PlayIsLinear(q: Request, visits: seq<Visit>, k: int)
    requires forall v :: v in visits ==> v.provider != q.primary
    ensures Linear(Play(q, visits, k).trace, {})
    ensures HeldAfter(Play(q, visits, k).trace, {}) ==
            match Play(q, visits, k).winner { case Some(v) => SlotIf(q, v) case None => {} }
    decreases |visits|
  {
    hide Turn, SlotIf, Linear, HeldAfter;
    if visits == [] || k <= 0 {
      NothingIsLinear({});
    } else {
      TurnIsLinear(q, visits[0], {});
      TurnWinner(q, visits[0]);
      if Turn(q, visits[0]).winner.None? {
        PlayIsLinear(q, visits[1..], k - 1);
        LinearConcat(Turn(q, visits[0]).trace, Play(q, visits[1..], k - 1).trace, {});
      }
    }
  }

  lemma NothingIsLinear(held: set<string>)
    ensures Linear([], held) && HeldAfter([], held) == held
  {
  }

  ghost predicate PrimaryTried(q: Request)
    requires WellFormed(q)
  {
    Eligible(q, q.store[q.primary], q.model) && q.maxDepth >= 1
  }

  /** The slot the proxy brings into the walk. */
  function PrimarySlot(q: Request): set<string> {
    if q.metered && q.primarySlot then {q.primary} else {}
  }

  /** The candidates open with the primary exactly when it is eligible. */
  lemma CandidatesOpen(q: Request)
    requires WellFormed(q)
    ensures if Eligible(q, q.store[q.primary], q.model)
            then Candidates(q) != [] && Candidates(q)[0] == Visit(q.primary, q.model)
            else Candidates(q) == []
    ensures forall v :: v in Candidates(q)[Charge(|Candidates(q)|, 1)..] ==> v.provider != q.primary
  {
    hide Eligible, Children;
    SubtreeIsFresh(q, q.primary, q.model, {});
  }

  /**
    * Slots over a whole walk: during each attempt no other candidate's slot is
    * in hand; a win leaves exactly the winner's slot; an exhausted walk leaves
    * none, except the primary's own when the primary was never tried.
    */
  lemma SlotLinearity(q: Request)
    requires WellFormed(q)
    ensures Linear(Outcome(q).trace, PrimarySlot(q))
    ensures HeldAfter(Outcome(q).trace, PrimarySlot(q)) ==
            match Outcome(q).winner
            case Some(v) => SlotIf(q, v)
            case None => if PrimaryTried(q) then {} else PrimarySlot(q)
  {
    hide Eligible, Subtree, Turn, Linear, HeldAfter;
    CandidatesOpen(q);
    var visits := Candidates(q);
    if !PrimaryTried(q) {
      NothingIsLinear(PrimarySlot(q));
    } else {
      var first := visits[0];
      assert SlotIf(q, first) == PrimarySlot(q);
      TurnIsLinear(q, first, PrimarySlot(q));
      TurnWinner(q, first);
      if Turn(q, first).winner.None? {
        PlayIsLinear(q, visits[1..], q.maxDepth - 1);
        LinearConcat(Turn(q, first).trace, Play(q, visits[1..], q.maxDepth - 1).trace, PrimarySlot(q));
      }
    }
  }

  // ---------------------------------------------------------------- exhaustion

  /** The class a candidate that did not end the walk is filed under. */
  function FailureOf(q: Request, v: Visit): FailClass {
    if Refused(q, v) then RefusalClass(q.gate(v.provider))
    else match ReplyOf(q, v)
         case Unreachable(timedOut) => if timedOut then Timeout else Connect
         case Answered(_) => Upstream
  }

  lemma TurnFailure(q: Request, v: Visit)
    requires Turn(q, v).winner.None?
    ensures Turn(q, v).observed == {FailureOf(q, v)}
  {
  }

  /**
    * One candidate's turn, in the terms of its gate and its answer: what ends
    * the walk, who is refused, who holds a slot, and how a failure is filed.
    */
  lemma TurnExactly(q: Request, v: Visit)
    ensures
      var gate, reply := q.gate(v.provider), q.reply(v.provider, v.model);
      && (Ends(reply) <==>
            reply.Answered? && (200 <= reply.status <= 299
                                || (400 <= reply.status <= 499 && reply.status !in {401, 403, 429})))
      && (Refused(q, v) <==>
            q.metered && v.provider != q.primary && (gate.Blocked? || gate.Throttled? || gate.Unavailable?))
      && (HasSlot(q, v) <==> q.metered && if v.provider == q.primary then q.primarySlot else gate == Open(true))
      && FailureOf(q, v) == (if q.metered && v.provider != q.primary && gate.Unavailable? then BudgetUnavailable
                             else if q.metered && v.provider != q.primary && !gate.Open? then OverBudget
                             else if reply == Unreachable(true) then Timeout
                             else if reply == Unreachable(false) then Connect
                             else Upstream)
  {
  }

  /** An exhausted walk observed exactly the failures of the charged candidates. */
  lemma {:induction false} ObservedIsCharged(q: Request, visits: seq<Visit>, k: int)
    requires Play(q, visits, k).winner.None?
    ensures Play(q, visits, k).observed == set v | v in Charged(visits, k) :: FailureOf(q, v)
    decreases |visits|
  {
    hide Turn, FailureOf;
    if visits != [] && k > 0 {
      TurnFailure(q, visits[0]);
      ObservedIsCharged(q, visits[1..], k - 1);
      assert Charged(visits, k) == [visits[0]] + Charged(visits[1..], k - 1);
    }
  }

  /** A refused candidate asks for its budget's Retry-After, a throttled one for a second. */
  predicate Asks(q: Request, v: Visit, seconds: int) {
    Refused(q, v) && (q.gate(v.provider) == Blocked(seconds) || (seconds == 1 && q.gate(v.provider).Throttled?))
  }

  lemma TurnAsks(q: Request, v: Visit)
    ensures forall seconds :: Asks(q, v, seconds) ==> seconds <= Turn(q, v).retry
    ensures Turn(q, v).retry == 0 || Asks(q, v, Turn(q, v).retry)
  {
    hide Ends, HasSlot, ClassOf;
  }

  /** And the retry hint is the longest any refused one of them gave. */
  lemma {:induction false} RetryIsLongest(q: Request, visits: seq<Visit>, k: int)
    requires Play(q, visits, k).winner.None?
    ensures
      var retry, charged := Play(q, visits, k).retry, Charged(visits, k);
      && (forall v, seconds :: v in charged && Asks(q, v, seconds) ==> seconds <= retry)
      && (retry == 0 || exists v :: v in charged && Asks(q, v, retry))
    decreases |visits|
  {
    hide Turn, Asks;
    if visits != [] && k > 0 {
      TurnAsks(q, visits[0]);
      RetryIsLongest(q, visits[1..], k - 1);
      var v, rest := visits[0], Charged(visits[1..], k - 1);
      assert Charged(visits, k) == [v] + rest;
      assert v in Charged(visits, k);
      assert forall u :: u in rest ==> u in Charged(visits, k);
    }
  }

  lemma OnlyClass(q: Request, charged: seq<Visit>, observed: set<FailClass>, c: FailClass)
    requires charged != [] && observed == set v | v in charged :: FailureOf(q, v)
    ensures observed == {c} <==> forall v :: v in charged ==> FailureOf(q, v) == c
  {
    hide FailureOf;
    if observed == {c} {
      forall v | v in charged ensures FailureOf(q, v) == c {
        assert FailureOf(q, v) in observed;
      }
    }
    assert charged[0] in charged && FailureOf(q, charged[0]) in observed;
  }

  /**
    * How an exhausted walk is reported. A budget error is never reported: the
    * primary is admitted before the walk, so whenever anything is charged the
    * primary's own failed exchange is among the observed classes.
    */
  lemma ExhaustionReport(q: Request)
    requires WellFormed(q) && Outcome(q).winner.None?
    ensures var f := ExhaustionOf(Outcome(q).observed, Outcome(q).retry);
            var charged := Charged(Candidates(q), q.maxDepth);
            && (f.kind == ProviderUnavailable <==>
                  PrimaryTried(q) && forall v :: v in charged ==> FailureOf(q, v) == Connect)
            && (f.kind == ProviderTimeout <==>
                  PrimaryTried(q) && forall v :: v in charged ==> FailureOf(q, v) == Timeout)
            && f.kind != BudgetUnverified && f.kind != BudgetExhausted
            && f.status == (if f.kind == ProviderUnavailable then 503
                            else if f.kind == ProviderTimeout then 504 else 502)
            && f.retryAfter == 0
  {
    hide Eligible, Subtree, Play, Turn;
    CandidatesOpen(q);
    ObservedIsCharged(q, Candidates(q), q.maxDepth);
    var charged := Charged(Candidates(q), q.maxDepth);
    var observed := Outcome(q).observed;
    if PrimaryTried(q) {
      var first := charged[0];
      assert first == Visit(q.primary, q.model) && !Refused(q, first);
      assert first in charged && FailureOf(q, first) in observed;
      assert FailureOf(q, first) in {Connect, Timeout, Upstream};
      OnlyClass(q, charged, observed, Connect);
      OnlyClass(q, charged, observed, Timeout);
    } else {
      assert charged == [] && observed == {};
    }
  }
}

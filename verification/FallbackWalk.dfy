/**
  * The gateway's fallback walk: a depth-first search that mutates a shared
  * state, proved against a first-visit preorder of the eligible candidates
  * that is then played against the attempt cap, the budget gate and the
  * upstream answers.
  */
module FallbackWalk {
  import opened Decimal
  import opened FallbackGraph

  datatype FailClass = Connect | Timeout | Upstream | OverBudget | NotFallbackable | BudgetUnavailable

  /** What the budget admission of a fallback candidate says. */
  datatype Gate = Blocked(retryAfter: int) | Throttled | Unavailable | Open(slot: bool)

  /** One upstream exchange: a transport failure or a response. */
  datatype Reply = Unreachable(timedOut: bool) | Answered(status: int)

  /**
    * One request: the catalog, the primary's name, the requested model, the
    * attempt cap, the request's own format, and what the budget, the upstreams
    * and the eligibility inputs answer.
    */
  datatype Request = Request(
    store: Store,
    primary: string,
    model: string,
    maxDepth: int,
    inbound: string,
    parsed: bool,
    metered: bool,
    primarySlot: bool,
    allowed: set<string>,
    translates: (string, string) -> bool,
    gate: string -> Gate,
    reply: (string, string) -> Reply)

  /** A candidate together with the model it is asked for. */
  datatype Visit = Visit(provider: string, model: string)

  /** What the outside sees of a walk. */
  datatype Step = Admitted(provider: string) | Attempted(visit: Visit) | Released(provider: string)

  datatype Preordered = Preordered(visits: seq<Visit>, seen: set<string>)

  datatype Played = Played(trace: seq<Step>, winner: Option<Visit>, observed: set<FailClass>, retry: nat)

  /** Where a walk stands: attempts charged, nodes marked, and the record so far. */
  datatype Progress = Progress(attempts: int, visited: set<string>, record: Played)

  const NOTHING := Played([], None, {}, 0)

  function Max(a: nat, b: nat): nat {
    if a < b then b else a
  }

  ghost predicate WellFormed(q: Request) {
    Named(q.store) && q.primary in q.store
  }

  // ---------------------------------------------------------------- classification

  /** Whether a status sends the walk on, and the class it is filed under. */
  function IsFallbackable(status: int): (r: (bool, Option<FailClass>))
    ensures r.0 <==> r.1 == Some(Upstream)
    ensures !r.0 <==> 200 <= status <= 299 || (400 <= status <= 499 && status !in {401, 403, 429})
    ensures r.1 == None <==> 200 <= status <= 299
  {
    if 200 <= status <= 299 then (false, None)
    else if status == 429 || 500 <= status <= 599 then (true, Some(Upstream))
    else if status == 401 || status == 403 then (true, Some(Upstream))
    else if status == 400 || status == 422 then (false, Some(NotFallbackable))
    else if 400 <= status <= 499 then (false, Some(NotFallbackable))
    else (true, Some(Upstream))
  }

  function ClassOf(reply: Reply): Option<FailClass> {
    match reply
    case Unreachable(timedOut) => Some(if timedOut then Timeout else Connect)
    case Answered(status) => IsFallbackable(status).1
  }

  /** The walk ends at a success and at a failure no fallback may mask. */
  predicate Ends(reply: Reply) {
    reply.Answered? && !IsFallbackable(reply.status).0
  }

  // ---------------------------------------------------------------- eligibility

  /** The static checks; failing one costs no attempt and prunes the subtree. */
  predicate Eligible(q: Request, p: Provider, model: string)
    requires q.primary in q.store
  {
    var first := q.store[q.primary].kind;
    var target := FormatForType(p.kind);
    && (p.name != q.primary ==>
          FormatCompatible(first, p.kind) && !(CrossesFormat(first, p.kind) && q.inbound == ""))
    && p.name in q.allowed
    && model in p.models
    && (q.inbound != "" && target != "" && target != q.inbound && q.parsed ==> q.translates(p.name, model))
  }

  // ---------------------------------------------------------------- the specification

  /** First-visit preorder below a node, ineligible nodes dropped with their subtree. */
  function Subtree(q: Request, name: string, model: string, seen: set<string>): (r: Preordered)
    requires WellFormed(q) && name in q.store
    ensures seen <= r.seen
    decreases q.store.Keys - seen, 0
  {
    if name in seen then Preordered([], seen)
    else if !Eligible(q, q.store[name], model) then Preordered([], seen + {name})
    else
      var below := Children(q, q.store[name].fallback, model, seen + {name});
      Preordered([Visit(name, model)] + below.visits, below.seen)
  }

  /** The same below a list of edges, in declared order; unknown targets are skipped. */
  function Children(q: Request, edges: seq<Edge>, model: string, seen: set<string>): (r: Preordered)
    requires WellFormed(q)
    ensures seen <= r.seen
    decreases q.store.Keys - seen, 1 + |edges|
  {
    if edges == [] then Preordered([], seen)
    else
      var last := |edges| - 1;
      var before := Children(q, edges[..last], model, seen);
      if edges[last].target !in q.store then before
      else
        var below := Subtree(q, edges[last].target, EdgeModel(edges[last], model), before.seen);
        Preordered(before.visits + below.visits, below.seen)
  }

  predicate Refused(q: Request, v: Visit) {
    q.metered && v.provider != q.primary && !q.gate(v.provider).Open?
  }

  predicate HasSlot(q: Request, v: Visit) {
    q.metered &&
    if v.provider == q.primary then q.primarySlot else q.gate(v.provider).Open? && q.gate(v.provider).slot
  }

  function ReplyOf(q: Request, v: Visit): Reply {
    q.reply(v.provider, v.model)
  }

  function RefusalClass(gate: Gate): FailClass {
    if gate.Unavailable? then BudgetUnavailable else OverBudget
  }

  function RefusalRetry(gate: Gate): nat {
    match gate
    case Blocked(after) => if after > 0 then after else 0
    case Throttled => 1
    case Unavailable => 0
    case Open(_) => 0
  }

  function SetOf(c: Option<FailClass>): set<FailClass> {
    if c.Some? then {c.value} else {}
  }

  function Entering(q: Request, v: Visit): seq<Step> {
    (if HasSlot(q, v) && v.provider != q.primary then [Admitted(v.provider)] else []) + [Attempted(v)]
  }

  function Leaving(q: Request, v: Visit): seq<Step> {
    if HasSlot(q, v) then [Released(v.provider)] else []
  }

  /** What one candidate contributes. */
  function Turn(q: Request, v: Visit): Played {
    if Refused(q, v) then
      Played([], None, {RefusalClass(q.gate(v.provider))}, RefusalRetry(q.gate(v.provider)))
    else if Ends(ReplyOf(q, v)) then
      Played(Entering(q, v), Some(v), SetOf(ClassOf(ReplyOf(q, v))), 0)
    else
      Played(Entering(q, v) + Leaving(q, v), None, SetOf(ClassOf(ReplyOf(q, v))), 0)
  }

  /** What follows a win is not played. */
  function Then(first: Played, second: Played): Played {
    if first.winner.Some? then first
    else Played(first.trace + second.trace, second.winner, first.observed + second.observed,
                Max(first.retry, second.retry))
  }

  /** Plays a list of candidates with `k` attempts left. */
  function Play(q: Request, visits: seq<Visit>, k: int): Played
    decreases |visits|
  {
    if visits == [] || k <= 0 then NOTHING
    else Then(Turn(q, visits[0]), Play(q, visits[1..], k - 1))
  }

  lemma ThenNothing(x: Played)
    ensures Then(x, NOTHING) == x && Then(NOTHING, x) == x
  {
    assert x.trace + [] == x.trace && [] + x.trace == x.trace;
  }

  lemma ThenAssociates(x: Played, y: Played, z: Played)
    ensures Then(Then(x, y), z) == Then(x, Then(y, z))
  {
    assert (x.trace + y.trace) + z.trace == x.trace + (y.trace + z.trace);
    assert (x.observed + y.observed) + z.observed == x.observed + (y.observed + z.observed);
  }

  /** Playing two lists in a row is playing one and then the other. */
  lemma {:induction false} PlayConcat(q: Request, a: seq<Visit>, b: seq<Visit>, k: int)
    ensures Play(q, a + b, k) == Then(Play(q, a, k), Play(q, b, k - |a|))
    decreases |a|
  {
    hide Turn, Then;
    if a == [] {
      assert a + b == b;
      ThenNothing(Play(q, b, k));
    } else if k > 0 {
      assert (a + b)[1..] == a[1..] + b;
      PlayConcat(q, a[1..], b, k - 1);
      ThenAssociates(Turn(q, a[0]), Play(q, a[1..], k - 1), Play(q, b, k - |a|));
    } else {
      ThenNothing(NOTHING);
    }
  }

  lemma PlayCons(q: Request, v: Visit, rest: seq<Visit>, k: int)
    requires k > 0
    ensures Play(q, [v] + rest, k) == Then(Turn(q, v), Play(q, rest, k - 1))
  {
    assert ([v] + rest)[1..] == rest;
  }

  // ---------------------------------------------------------------- the walk

  /** How exploring `pre` with the attempts left takes progress `a` to `b`. */
  ghost predicate Explored(q: Request, pre: Preordered, a: Progress, b: Progress, won: Option<Visit>) {
    var k := q.maxDepth - a.attempts;
    && b.record.(winner := won) == Then(a.record, Play(q, pre.visits, k))
    && b.record.winner == None
    && (won.None? ==> b.attempts == a.attempts + Charge(|pre.visits|, k))
    && (won.None? && |pre.visits| <= k ==> b.visited == pre.seen)
  }

  function Charge(n: nat, k: int): nat {
    if k <= 0 then 0 else if n < k then n else k
  }

  /** Exploring one list and then, from where that stopped, another. */
  lemma ExploredThen(q: Request, one: Preordered, two: Preordered, actual: Preordered,
                     a: Progress, b: Progress, c: Progress, won: Option<Visit>)
    requires Explored(q, one, a, b, None)
    requires Explored(q, actual, b, c, won)
    requires b.visited == one.seen ==> actual == two
    ensures Explored(q, Preordered(one.visits + two.visits, two.seen), a, c, won)
  {
    hide Turn, Then, Ends, Refused;
    var k := q.maxDepth - a.attempts;
    PlayConcat(q, one.visits, two.visits, k);
    ThenAssociates(a.record, Play(q, one.visits, k), Play(q, two.visits, k - |one.visits|));
    if |one.visits| > k {
      assert Play(q, actual.visits, q.maxDepth - b.attempts) == NOTHING;
      assert Play(q, two.visits, k - |one.visits|) == NOTHING;
      NoWinner(b.record);
      ThenNothing(b.record);
    }
  }

  lemma NoWinner(x: Played)
    ensures Then(x, NOTHING).winner == x.winner
  {
  }

  /** A candidate whose turn is not the last, followed by its descent. */
  lemma ExploredTurn(q: Request, v: Visit, below: Preordered, a: Progress, b: Progress, c: Progress,
                     won: Option<Visit>)
    requires a.attempts < q.maxDepth
    requires b == Progress(a.attempts + 1, a.visited + {v.provider}, Then(a.record, Turn(q, v)))
    requires Explored(q, below, b, c, won)
    ensures Explored(q, Preordered([v] + below.visits, below.seen), a, c, won)
  {
    hide Turn, Then;
    PlayCons(q, v, below.visits, q.maxDepth - a.attempts);
    ThenAssociates(a.record, Turn(q, v), Play(q, below.visits, q.maxDepth - b.attempts));
  }

  lemma WonHere(q: Request, v: Visit, below: Preordered, record: Played, k: int)
    requires k > 0 && record.winner == None && Then(record, Turn(q, v)).winner.Some?
    ensures Then(record, Play(q, [v] + below.visits, k)) == Then(record, Turn(q, v))
  {
    PlayCons(q, v, below.visits, k);
  }

  /** The preorder below some edges opens the preorder below all of them. */
  lemma {:induction false} ChildrenPrefix(q: Request, edges: seq<Edge>, n: nat, model: string, seen: set<string>)
    returns (tail: seq<Visit>)
    requires WellFormed(q) && n <= |edges|
    ensures Children(q, edges, model, seen).visits == Children(q, edges[..n], model, seen).visits + tail
    decreases |edges|
  {
    hide Subtree, EdgeModel;
    if n == |edges| {
      assert edges[..n] == edges;
      tail := [];
    } else {
      var last := |edges| - 1;
      assert edges[..last][..n] == edges[..n];
      tail := ChildrenPrefix(q, edges[..last], n, model, seen);
      var before := Children(q, edges[..last], model, seen);
      if edges[last].target in q.store {
        tail := tail + Subtree(q, edges[last].target, EdgeModel(edges[last], model), before.seen).visits;
      }
    }
  }

  /** A win among the first edges is the win of the whole list. */
  lemma WonEarly(q: Request, edges: seq<Edge>, n: nat, model: string,
                 a: Progress, b: Progress, won: Option<Visit>)
    requires WellFormed(q) && n <= |edges| && won.Some? && a.record.winner == None
    requires Explored(q, Children(q, edges[..n], model, a.visited), a, b, won)
    ensures Explored(q, Children(q, edges, model, a.visited), a, b, won)
  {
    hide Children, Play, Turn;
    var tail := ChildrenPrefix(q, edges, n, model, a.visited);
    PlayConcat(q, Children(q, edges[..n], model, a.visited).visits, tail, q.maxDepth - a.attempts);
  }

  lemma NoEdges(q: Request, model: string, a: Progress)
    requires WellFormed(q) && a.record.winner == None
    ensures Explored(q, Children(q, [], model, a.visited), a, a, None)
  {
    ThenNothing(a.record);
  }

  lemma ChildrenNext(q: Request, edges: seq<Edge>, i: nat, model: string, seen: set<string>)
    requires WellFormed(q) && i < |edges|
    ensures var before := Children(q, edges[..i], model, seen);
            Children(q, edges[..i + 1], model, seen) ==
            if edges[i].target !in q.store then before
            else
              var below := Subtree(q, edges[i].target, EdgeModel(edges[i], model), before.seen);
              Preordered(before.visits + below.visits, below.seen)
  {
    hide Subtree, EdgeModel;
    assert edges[..i + 1][..i] == edges[..i];
  }

  /** A result as the walk returns it: the winner, if any, and whether its slot rides along. */
  datatype Result = Result(won: Option<Visit>, settle: bool)

  class WalkState {
    const q: Request
    var attemptCount: int
    var visited: set<string>
    var observed: set<FailClass>
    var maxRetryAfter: nat
    var modelFor: map<string, string>
    /** Candidates whose translated body is cached; only visited ones are. */
    var translated: set<string>
    /** Record of the admissions, upstream calls and zero settles made so far. */
    ghost var trace: seq<Step>

    constructor (q: Request)
      ensures this.q == q
      ensures View() == Progress(0, {}, NOTHING)
      ensures modelFor == map[q.primary := q.model] && translated <= visited
    {
      this.q := q;
      attemptCount, visited, observed, maxRetryAfter, trace := 0, {}, {}, 0, [];
      modelFor, translated := map[q.primary := q.model], {};
    }

    ghost function View(): Progress
      reads this
    {
      Progress(attemptCount, visited, Played(trace, None, observed, maxRetryAfter))
    }

    /** The recorded model of a candidate, or the one the walk started with. */
    function CandidateModel(name: string): string
      reads this
    {
      if name in modelFor && modelFor[name] != "" then modelFor[name] else q.model
    }

    /** The first static check a candidate fails, "" when it passes them all. */
    method StaticallyIneligible(p: Provider) returns (reason: string)
      requires q.primary in q.store && p.name !in translated
      modifies this`translated
      ensures reason == "" <==> Eligible(q, p, CandidateModel(p.name))
      ensures translated <= old(translated) + {p.name}
    {
      var first := q.store[q.primary].kind;
      if p.name != q.primary {
        if !FormatCompatible(first, p.kind) {
          return "type cannot follow the primary's type";
        }
        if CrossesFormat(first, p.kind) && q.inbound == "" {
          return "the request's format cannot cross";
        }
      }
      if p.name !in q.allowed {
        return "namespace not allowed";
      }
      var model := CandidateModel(p.name);
      var found := false;
      for i := 0 to |p.models|
        invariant found <==> model in p.models[..i]
      {
        if p.models[i] == model {
          found := true;
          break;
        }
      }
      if !found {
        return "model not offered";
      }
      var target := FormatForType(p.kind);
      if q.inbound != "" && target != "" && target != q.inbound && q.parsed {
        if p.name !in translated {
          if !q.translates(p.name, model) {
            return "not translatable";
          }
          translated := translated + {p.name};
        }
      }
      return "";
    }

    /**
      * One charged candidate: budget admission, the upstream call, and the
      * zero settle of a failed attempt, before anything below it is visited.
      */
    method TakeTurn(v: Visit) returns (ended: bool, settle: bool)
      modifies this`observed, this`maxRetryAfter, this`trace
      ensures View().record.(winner := if ended then Some(v) else None) == Then(old(View().record), Turn(q, v))
      ensures ended ==> settle == HasSlot(q, v)
    {
      ended, settle := false, false;
      if q.metered {
        if v.provider == q.primary {
          settle := q.primarySlot;
        } else {
          match q.gate(v.provider)
          case Unavailable =>
            observed := observed + {BudgetUnavailable};
            return;
          case Throttled =>
            observed := observed + {OverBudget};
            if maxRetryAfter < 1 {
              maxRetryAfter := 1;
            }
            return;
          case Blocked(after) =>
            observed := observed + {OverBudget};
            if after > maxRetryAfter {
              maxRetryAfter := after;
            }
            return;
          case Open(slot) =>
            settle := slot;
            if slot {
              trace := trace + [Admitted(v.provider)];
            }
        }
      }
      trace := trace + [Attempted(v)];
      var reply := q.reply(v.provider, v.model);
      observed := observed + SetOf(ClassOf(reply));
      ended := Ends(reply);
      if !ended && settle {
        trace := trace + [Released(v.provider)];
      }
    }

    method TryWithFallbacks(name: string) returns (res: Result)
      requires WellFormed(q) && name in q.store && translated <= visited
      modifies this
      ensures Explored(q, Subtree(q, name, old(CandidateModel(name)), old(visited)), old(View()), View(), res.won)
      ensures res.won.Some? ==> res.settle == HasSlot(q, res.won.value)
      ensures old(visited) <= visited && translated <= visited
      decreases q.store.Keys - visited, 0
    {
      hide Eligible, Turn, Then, HasSlot;
      ghost var start := View();
      ThenNothing(start.record);
      if name in visited {
        return Result(None, false);
      }
      visited := visited + {name};
      var p, model := q.store[name], CandidateModel(name);
      var reason := StaticallyIneligible(p);
      if reason != "" {
        return Result(None, false);
      }
      if attemptCount >= q.maxDepth {
        return Result(None, false);
      }
      attemptCount := attemptCount + 1;
      var here := Visit(name, model);
      ghost var below := Children(q, p.fallback, model, visited);
      var ended, settle := TakeTurn(here);
      if ended {
        WonHere(q, here, below, start.record, q.maxDepth - start.attempts);
        return Result(Some(here), settle);
      }
      ghost var mid := View();
      res := WalkChildren(p);
      ExploredTurn(q, here, below, start, mid, View(), res.won);
    }

    method WalkChildren(p: Provider) returns (res: Result)
      requires WellFormed(q) && translated <= visited
      modifies this
      ensures Explored(q, Children(q, p.fallback, old(CandidateModel(p.name)), old(visited)),
                       old(View()), View(), res.won)
      ensures res.won.Some? ==> res.settle == HasSlot(q, res.won.value)
      ensures old(visited) <= visited && translated <= visited
      decreases q.store.Keys - visited, 1 + |p.fallback|
    {
      hide Subtree, Children, Play, Turn, Then, Explored, HasSlot;
      ghost var start := View();
      var parentModel := CandidateModel(p.name);
      NoEdges(q, parentModel, start);
      for i := 0 to |p.fallback|
        invariant Explored(q, Children(q, p.fallback[..i], parentModel, start.visited), start, View(), None)
        invariant start.visited <= visited && translated <= visited
      {
        var ref := p.fallback[i];
        ghost var before := Children(q, p.fallback[..i], parentModel, start.visited);
        ChildrenNext(q, p.fallback, i, parentModel, start.visited);
        if ref.target in q.store {
          if parentModel in ref.modelMap && ref.modelMap[parentModel] != "" {
            modelFor := modelFor[ref.target := ref.modelMap[parentModel]];
          } else {
            modelFor := modelFor[ref.target := parentModel];
          }
          ghost var model := EdgeModel(ref, parentModel);
          ghost var mid := View();
          res := TryWithFallbacks(ref.target);
          ExploredThen(q, before, Subtree(q, ref.target, model, before.seen),
                       Subtree(q, ref.target, model, mid.visited), start, mid, View(), res.won);
          if res.won.Some? {
            WonEarly(q, p.fallback, i + 1, parentModel, start, View(), res.won);
            return;
          }
        }
      }
      assert p.fallback[..|p.fallback|] == p.fallback;
      res := Result(None, false);
    }
  }
}

/**
  * The controller's fallback validation: a worklist search over the declared
  * edges that reports every chain problem. It is proved to report nothing
  * exactly when each provider reachable from the primary is reached along one
  * path only and every edge is well declared.
  */
module FallbackValidator {
  import opened Decimal
  import opened FallbackGraph

  datatype Problem =
    | Circular(name: string)
    | Absent(name: string)
    | Incompatible(name: string, childKind: string, parentKind: string)
    | UnknownKey(name: string, key: string, parent: string)
    | UnknownValue(name: string, value: string)

  /** What the API server answers: the stored providers, some of which fail to read. */
  datatype Catalog = Catalog(primary: Provider, store: Store, failing: set<string>)

  /** A declared edge together with the provider that declares it. */
  datatype Link = Link(parent: Provider, ref: Edge)

  type Path = seq<nat>

  function Get(c: Catalog, name: string): Option<Provider> {
    if name in c.failing || name !in c.store then None else Some(c.store[name])
  }

  predicate Missing(c: Catalog, name: string) {
    name !in c.failing && name !in c.store
  }

  // ---------------------------------------------------------------- paths

  /** The edge a nonempty path ends with, if the path can be followed. */
  ghost function LinkAt(c: Catalog, path: Path): Option<Link>
    requires path != []
    decreases |path|, 0
  {
    var last := |path| - 1;
    match NodeAt(c, path[..last])
    case Some(parent) =>
      if path[last] < |parent.fallback| then Some(Link(parent, parent.fallback[path[last]])) else None
    case None => None
  }

  /** The readable provider a path leads to. */
  ghost function NodeAt(c: Catalog, path: Path): Option<Provider>
    decreases |path|, 1
  {
    if path == [] then Some(c.primary)
    else match LinkAt(c, path)
         case Some(link) => Get(c, link.ref.target)
         case None => None
  }

  ghost predicate IsPath(c: Catalog, path: Path) {
    path == [] || LinkAt(c, path).Some?
  }

  ghost function EndOf(c: Catalog, path: Path): string
    requires IsPath(c, path)
  {
    if path == [] then c.primary.name else LinkAt(c, path).value.ref.target
  }

  predicate MapsDeclared(link: Link, child: Provider) {
    forall k :: k in link.ref.modelMap ==>
      k in link.parent.models && link.ref.modelMap[k] in child.models
  }

  /** An edge whose target cannot be read is not judged. */
  predicate EdgeOk(c: Catalog, link: Link) {
    && !Missing(c, link.ref.target)
    && match Get(c, link.ref.target)
       case Some(child) => FormatCompatible(link.parent.kind, child.kind) && MapsDeclared(link, child)
       case None => true
  }

  ghost predicate OnePathEach(c: Catalog) {
    forall p: Path, r: Path ::
      IsPath(c, p) && IsPath(c, r) && EndOf(c, p) == EndOf(c, r) ==> p == r
  }

  ghost predicate EdgesOk(c: Catalog) {
    forall p: Path :: p != [] && IsPath(c, p) ==> EdgeOk(c, LinkAt(c, p).value)
  }

  ghost predicate Clean(c: Catalog) {
    OnePathEach(c) && EdgesOk(c)
  }

  /** What a problem says of the edge it was found on. */
  predicate EdgeProblem(link: Link, child: Provider, problem: Problem) {
    match problem
    case Incompatible(name, childKind, parentKind) =>
      && name == link.ref.target && childKind == child.kind && parentKind == link.parent.kind
      && !FormatCompatible(parentKind, childKind)
    case UnknownKey(name, key, parent) =>
      && name == link.ref.target && parent == link.parent.name
      && key in link.ref.modelMap && key !in link.parent.models
    case UnknownValue(name, value) =>
      && name == link.ref.target && value !in child.models
      && exists k :: k in link.ref.modelMap && link.ref.modelMap[k] == value
    case Circular(_) => false
    case Absent(_) => false
  }

  predicate FaultOf(c: Catalog, link: Link, problem: Problem) {
    match Get(c, link.ref.target)
    case Some(child) => EdgeProblem(link, child, problem)
    case None => false
  }

  ghost predicate FaultAt(c: Catalog, p: Path, problem: Problem)
    requires p != [] && IsPath(c, p)
  {
    FaultOf(c, LinkAt(c, p).value, problem)
  }

  /** An edge whose end is not missing and that has no fault is well declared. */
  lemma FaultlessIsOk(c: Catalog, link: Link)
    requires !Missing(c, link.ref.target) && forall problem :: !FaultOf(c, link, problem)
    ensures EdgeOk(c, link)
  {
    if Get(c, link.ref.target).Some? {
      var name, child, parent := link.ref.target, Get(c, link.ref.target).value, link.parent;
      assert !FaultOf(c, link, Incompatible(name, child.kind, parent.kind));
      forall k | k in link.ref.modelMap ensures k in parent.models && link.ref.modelMap[k] in child.models {
        assert !FaultOf(c, link, UnknownKey(name, k, parent.name));
        assert !FaultOf(c, link, UnknownValue(name, link.ref.modelMap[k]));
      }
    }
  }

  // ---------------------------------------------------------------- what is to be reported

  /** A tree that spans what the primary reaches: one path to each name met, every edge out of it leading into it. */
  ghost predicate Spans(c: Catalog, tree: set<Path>) {
    && [] in tree
    && (forall p :: p in tree ==> IsPath(c, p) && (p == [] || p[..|p| - 1] in tree))
    && (forall p, r :: p in tree && r in tree && EndOf(c, p) == EndOf(c, r) ==> p == r)
    && (forall p :: Leaves(c, tree, p) ==> exists r :: r in tree && EndOf(c, r) == EndOf(c, p))
  }

  /** The path takes one edge out of the tree's paths. */
  ghost predicate Leaves(c: Catalog, tree: set<Path>, p: Path) {
    p != [] && IsPath(c, p) && p[..|p| - 1] in tree
  }

  /** What is wrong along the tree: an edge that closes a second path, a missing end, a fault of a taken edge. */
  ghost predicate Wrong(c: Catalog, tree: set<Path>, problem: Problem)
    requires Spans(c, tree)
  {
    match problem
    case Circular(name) => exists p :: Leaves(c, tree, p) && p !in tree && EndOf(c, p) == name
    case Absent(name) => Missing(c, name) && exists p :: p in tree && p != [] && EndOf(c, p) == name
    case Incompatible(_, _, _) => exists p :: p in tree && p != [] && FaultAt(c, p, problem)
    case UnknownKey(_, _, _) => exists p :: p in tree && p != [] && FaultAt(c, p, problem)
    case UnknownValue(_, _) => exists p :: p in tree && p != [] && FaultAt(c, p, problem)
  }

  /** The report is exact for a spanning tree: it lists what is wrong along it and nothing else. */
  ghost predicate Exact(c: Catalog, tree: set<Path>, problems: seq<Problem>) {
    Spans(c, tree) && forall problem :: problem in problems <==> Wrong(c, tree, problem)
  }

  /** Whatever is wrong along the tree is a second path to a name or a badly declared edge. */
  lemma WrongIsUnclean(c: Catalog, tree: set<Path>, problem: Problem)
    requires Spans(c, tree) && Wrong(c, tree, problem)
    ensures !Clean(c)
  {
    hide LinkAt, NodeAt;
    if problem.Circular? {
      var p :| Leaves(c, tree, p) && p !in tree && EndOf(c, p) == problem.name;
      var r :| r in tree && EndOf(c, r) == EndOf(c, p);
      assert !OnePathEach(c);
    } else if problem.Absent? {
      var p :| p in tree && p != [] && EndOf(c, p) == problem.name;
      assert !EdgeOk(c, LinkAt(c, p).value);
    } else {
      var p :| p in tree && p != [] && FaultAt(c, p, problem);
      assert !EdgeOk(c, LinkAt(c, p).value);
    }
  }

  lemma PrefixIsPath(c: Catalog, path: Path)
    requires IsPath(c, path) && path != []
    ensures IsPath(c, path[..|path| - 1])
  {
    assert NodeAt(c, path[..|path| - 1]).Some?;
  }

  /** Where no edge closes a second path, the tree holds every path. */
  lemma {:induction false} AllTaken(c: Catalog, tree: set<Path>, path: Path)
    requires Spans(c, tree) && IsPath(c, path)
    requires forall p :: Leaves(c, tree, p) ==> p in tree
    ensures path in tree
    decreases |path|
  {
    hide LinkAt, NodeAt;
    if path != [] {
      PrefixIsPath(c, path);
      AllTaken(c, tree, path[..|path| - 1]);
      assert Leaves(c, tree, path);
    }
  }

  lemma NothingWrongIsClean(c: Catalog, tree: set<Path>)
    requires Spans(c, tree) && forall problem :: !Wrong(c, tree, problem)
    ensures Clean(c)
  {
    hide LinkAt, NodeAt, EdgeOk, FaultOf;
    forall p | Leaves(c, tree, p) ensures p in tree {
      assert !Wrong(c, tree, Circular(EndOf(c, p)));
    }
    forall p: Path | IsPath(c, p) ensures p in tree {
      AllTaken(c, tree, p);
    }
    forall p: Path | p != [] && IsPath(c, p) ensures EdgeOk(c, LinkAt(c, p).value) {
      NothingWrongAt(c, tree, p);
    }
  }

  lemma NothingWrongAt(c: Catalog, tree: set<Path>, p: Path)
    requires Spans(c, tree) && p in tree && p != []
    requires forall problem :: !Wrong(c, tree, problem)
    ensures EdgeOk(c, LinkAt(c, p).value)
  {
    hide LinkAt, NodeAt, EdgeOk, FaultOf;
    var link := LinkAt(c, p).value;
    assert !Wrong(c, tree, Absent(EndOf(c, p)));
    forall problem ensures !FaultOf(c, link, problem) {
      FaultKinds(c, link, problem);
      assert FaultAt(c, p, problem) <==> FaultOf(c, link, problem);
      assert !Wrong(c, tree, problem);
    }
    FaultlessIsOk(c, link);
  }

  lemma FaultKinds(c: Catalog, link: Link, problem: Problem)
    ensures FaultOf(c, link, problem) ==> problem.Incompatible? || problem.UnknownKey? || problem.UnknownValue?
  {
  }

  /** An exact report is empty exactly when the chain is clean. */
  lemma ExactReports(c: Catalog, tree: set<Path>, problems: seq<Problem>)
    requires Exact(c, tree, problems)
    ensures problems == [] <==> Clean(c)
  {
    hide Spans, Wrong, Clean;
    if problems == [] {
      NothingWrongIsClean(c, tree);
    } else {
      assert problems[0] in problems;
      WrongIsUnclean(c, tree, problems[0]);
    }
  }

  /** The primary is stored as it was given, or not readable. */
  predicate PrimaryStored(c: Catalog) {
    Get(c, c.primary.name) == None || Get(c, c.primary.name) == Some(c.primary)
  }

  /** Two paths with one end lead on along the same edges. */
  lemma SameEdges(c: Catalog, p: Path, q: Path, i: nat)
    requires PrimaryStored(c) && IsPath(c, p) && IsPath(c, q) && EndOf(c, p) == EndOf(c, q)
    requires EndOf(c, q) == c.primary.name ==> q == []
    requires IsPath(c, p + [i])
    ensures IsPath(c, q + [i]) && EndOf(c, q + [i]) == EndOf(c, p + [i])
  {
    assert (p + [i])[..|p|] == p && (q + [i])[..|q|] == q;
    assert NodeAt(c, p).Some?;
    assert NodeAt(c, q) == NodeAt(c, p);
  }

  /** Where the primary is stored as given, every name a path reaches ends a path of the tree. */
  lemma {:induction false} TreeReaches(c: Catalog, tree: set<Path>, path: Path) returns (r: Path)
    requires Spans(c, tree) && IsPath(c, path) && PrimaryStored(c)
    ensures r in tree && EndOf(c, r) == EndOf(c, path)
    decreases |path|
  {
    hide LinkAt, NodeAt, PrimaryStored;
    if path == [] {
      r := [];
    } else {
      var last := |path| - 1;
      var p := path[..last];
      assert path == p + [path[last]];
      PrefixIsPath(c, path);
      var q := TreeReaches(c, tree, p);
      r := ReachedNext(c, tree, p, q, path[last]);
    }
  }

  lemma ReachedNext(c: Catalog, tree: set<Path>, p: Path, q: Path, i: nat) returns (r: Path)
    requires Spans(c, tree) && PrimaryStored(c) && q in tree
    requires IsPath(c, p) && IsPath(c, p + [i]) && EndOf(c, p) == EndOf(c, q)
    ensures r in tree && EndOf(c, r) == EndOf(c, p + [i])
  {
    hide LinkAt, NodeAt, PrimaryStored;
    assert EndOf(c, q) == EndOf(c, []) ==> q == [];
    SameEdges(c, p, q, i);
    assert (q + [i])[..|q + [i]| - 1] == q;
    assert Leaves(c, tree, q + [i]);
    r :| r in tree && EndOf(c, r) == EndOf(c, q + [i]);
  }

  /** An exact report names every missing provider that any path reaches. */
  lemma AbsentReported(c: Catalog, tree: set<Path>, problems: seq<Problem>, path: Path)
    requires Exact(c, tree, problems) && PrimaryStored(c)
    requires path != [] && IsPath(c, path) && EndOf(c, path) != c.primary.name && Missing(c, EndOf(c, path))
    ensures Absent(EndOf(c, path)) in problems
  {
    hide LinkAt, NodeAt;
    var r := TreeReaches(c, tree, path);
    assert Wrong(c, tree, Absent(EndOf(c, path)));
  }

  // ---------------------------------------------------------------- the search's invariant

  /** Ghost record of a search: the paths popped so far, those of them taken, and those still queued. */
  datatype Search = Search(done: set<Path>, taken: set<Path>, pending: seq<Path>)

  ghost function Tree(s: Search): set<Path> {
    s.taken + {[]}
  }

  ghost predicate Paths(c: Catalog, s: Search) {
    (forall p :: p in s.done ==> p != [] && IsPath(c, p)) && s.taken <= s.done
  }

  /** Queue entries are the edges their paths end with; no path is popped twice. */
  ghost predicate Tracks(c: Catalog, s: Search, queue: seq<Link>) {
    && |s.pending| == |queue|
    && (forall j :: 0 <= j < |queue| ==>
          s.pending[j] != [] && LinkAt(c, s.pending[j]) == Some(queue[j]) && s.pending[j] !in s.done)
    && (forall i, j :: 0 <= i < j < |s.pending| ==> s.pending[i] != s.pending[j])
  }

  /** Only taken paths, and the empty one, have been extended. */
  ghost predicate Grown(s: Search) {
    && (forall p :: p in s.done ==> p != [] && p[..|p| - 1] in Tree(s))
    && (forall j :: 0 <= j < |s.pending| ==> s.pending[j] != [] && s.pending[j][..|s.pending[j]| - 1] in Tree(s))
  }

  /** The marked names are the ends of the taken paths, which end apart. */
  ghost predicate Marks(c: Catalog, s: Search, visited: set<string>)
    requires Paths(c, s)
  {
    && (forall p :: p in s.done ==> EndOf(c, p) in visited)
    && c.primary.name in visited
    && (forall n :: n in visited ==> exists p :: p in Tree(s) && EndOf(c, p) == n)
    && (forall p, r :: p in Tree(s) && r in Tree(s) && EndOf(c, p) == EndOf(c, r) ==> p == r)
  }

  /** Every taken path was extended in full. */
  ghost predicate Spread(c: Catalog, s: Search) {
    forall p :: p in Tree(s) ==> Extended(c, s, p)
  }

  ghost predicate Extended(c: Catalog, s: Search, p: Path) {
    match NodeAt(c, p)
    case Some(node) => forall i: nat :: i < |node.fallback| ==> p + [i] in s.done || p + [i] in s.pending
    case None => true
  }

  /** What the popped paths have met: marked names on the dropped ones, missing ends and faults on the taken ones. */
  ghost predicate Met(c: Catalog, s: Search, problem: Problem)
    requires Paths(c, s)
  {
    match problem
    case Circular(name) => exists p :: p in s.done && p !in s.taken && EndOf(c, p) == name
    case Absent(name) => Missing(c, name) && exists p :: p in s.taken && EndOf(c, p) == name
    case Incompatible(_, _, _) => exists p :: p in s.taken && FaultAt(c, p, problem)
    case UnknownKey(_, _, _) => exists p :: p in s.taken && FaultAt(c, p, problem)
    case UnknownValue(_, _) => exists p :: p in s.taken && FaultAt(c, p, problem)
  }

  ghost predicate Noted(c: Catalog, s: Search, problems: seq<Problem>)
    requires Paths(c, s)
  {
    forall problem :: problem in problems <==> Met(c, s, problem)
  }

  ghost predicate Inv(c: Catalog, s: Search, queue: seq<Link>, visited: set<string>, problems: seq<Problem>) {
    && Paths(c, s) && Tracks(c, s, queue) && Grown(s) && Marks(c, s, visited) && Spread(c, s)
    && Noted(c, s, problems)
  }

  // ---------------------------------------------------------------- the end of a search

  lemma EdgeTaken(c: Catalog, s: Search, p: Path)
    requires Spread(c, s) && s.pending == [] && Leaves(c, Tree(s), p)
    ensures p in s.done
  {
    var last := |p| - 1;
    assert p == p[..last] + [p[last]];
    assert Extended(c, s, p[..last]);
  }

  /** A search whose queue is empty has taken a spanning tree and popped every edge out of it. */
  lemma TakenSpans(c: Catalog, s: Search, visited: set<string>)
    requires Paths(c, s) && Grown(s) && Marks(c, s, visited) && Spread(c, s) && s.pending == []
    ensures Spans(c, Tree(s))
    ensures forall p :: Leaves(c, Tree(s), p) <==> p in s.done
  {
    hide LinkAt, NodeAt, Spread;
    forall p ensures Leaves(c, Tree(s), p) <==> p in s.done {
      if Leaves(c, Tree(s), p) {
        EdgeTaken(c, s, p);
      }
    }
  }

  lemma MetIsWrong(c: Catalog, s: Search, problem: Problem)
    requires Paths(c, s) && Spans(c, Tree(s))
    requires forall p :: Leaves(c, Tree(s), p) <==> p in s.done
    ensures Met(c, s, problem) <==> Wrong(c, Tree(s), problem)
  {
    hide LinkAt, NodeAt, Spans, Leaves, FaultAt, EndOf, IsPath;
    assert forall p :: p in s.taken <==> p in Tree(s) && p != [];
  }

  /** A finished search's report is exact. */
  lemma Finished(c: Catalog, s: Search, visited: set<string>, problems: seq<Problem>)
    requires Inv(c, s, [], visited, problems)
    ensures Exact(c, Tree(s), problems)
  {
    hide Paths, Grown, Marks, Spread, Spans, Met, Wrong, Leaves;
    TakenSpans(c, s, visited);
    forall problem ensures Met(c, s, problem) <==> Wrong(c, Tree(s), problem) {
      MetIsWrong(c, s, problem);
    }
  }

  // ---------------------------------------------------------------- one step

  function Links(p: Provider): seq<Link> {
    seq(|p.fallback|, i requires 0 <= i < |p.fallback| => Link(p, p.fallback[i]))
  }

  ghost function Extensions(c: Catalog, p: Path): seq<Path> {
    match NodeAt(c, p)
    case Some(node) => seq(|node.fallback|, (i: nat) => p + [i])
    case None => []
  }

  /** The popped path of a marked name is dropped. */
  ghost function Dropped(s: Search): Search
    requires s.pending != []
  {
    Search(s.done + {s.pending[0]}, s.taken, s.pending[1..])
  }

  /** Any other popped path is taken and extended. */
  ghost function Popped(c: Catalog, s: Search): Search
    requires s.pending != []
  {
    var p := s.pending[0];
    Search(s.done + {p}, s.taken + {p}, s.pending[1..] + Extensions(c, p))
  }

  function LinksBelow(c: Catalog, link: Link): seq<Link> {
    match Get(c, link.ref.target)
    case Some(child) => Links(child)
    case None => []
  }

  lemma StepPaths(c: Catalog, s: Search, queue: seq<Link>)
    requires Paths(c, s) && Tracks(c, s, queue) && queue != []
    ensures s.pending != [] && Paths(c, Dropped(s)) && Paths(c, Popped(c, s))
    ensures IsPath(c, s.pending[0]) && EndOf(c, s.pending[0]) == queue[0].ref.target
    ensures s.pending[0] !in s.done
  {
    hide LinkAt, NodeAt, Extensions;
  }

  lemma DroppedTracks(c: Catalog, s: Search, queue: seq<Link>)
    requires Tracks(c, s, queue) && queue != []
    ensures s.pending != [] && Tracks(c, Dropped(s), queue[1..])
  {
    hide LinkAt, NodeAt;
    var t := Dropped(s);
    forall j | 0 <= j < |t.pending| ensures t.pending[j] == s.pending[j + 1] && t.pending[j] !in t.done {
    }
    forall i, j | 0 <= i < j < |t.pending| ensures t.pending[i] != t.pending[j] {
      assert s.pending[i + 1] != s.pending[j + 1];
    }
  }

  lemma DroppedGrown(s: Search)
    requires Grown(s) && s.pending != []
    ensures Grown(Dropped(s))
  {
    var t := Dropped(s);
    assert Tree(t) == Tree(s);
    forall j | 0 <= j < |t.pending|
      ensures t.pending[j] != [] && t.pending[j][..|t.pending[j]| - 1] in Tree(t)
    {
      assert t.pending[j] == s.pending[j + 1];
    }
  }

  lemma DroppedMarks(c: Catalog, s: Search, queue: seq<Link>, visited: set<string>)
    requires Paths(c, s) && Tracks(c, s, queue) && Marks(c, s, visited)
    requires queue != [] && queue[0].ref.target in visited
    ensures Paths(c, Dropped(s)) && Marks(c, Dropped(s), visited)
  {
    hide LinkAt, NodeAt, Tracks;
    StepPaths(c, s, queue);
    assert Tree(Dropped(s)) == Tree(s);
  }

  /** What was extended stays extended when a path is popped. */
  lemma StaysExtended(c: Catalog, s: Search, t: Search, p: Path)
    requires Extended(c, s, p) && s.pending != [] && t.done == s.done + {s.pending[0]} && s.pending[1..] <= t.pending
    ensures Extended(c, t, p)
  {
    hide LinkAt, NodeAt, Get;
    if NodeAt(c, p).Some? {
      forall i: nat | i < |NodeAt(c, p).value.fallback| ensures p + [i] in t.done || p + [i] in t.pending {
        if p + [i] in s.pending {
          var j :| 0 <= j < |s.pending| && s.pending[j] == p + [i];
          if j > 0 {
            assert s.pending[1..][j - 1] == p + [i] && t.pending[j - 1] == p + [i];
          }
        }
      }
    }
  }

  lemma DroppedSpread(c: Catalog, s: Search)
    requires Spread(c, s) && s.pending != []
    ensures Spread(c, Dropped(s))
  {
    hide Extended;
    var t := Dropped(s);
    forall p | p in Tree(t) ensures Extended(c, t, p) {
      StaysExtended(c, s, t, p);
    }
  }

  /** Meeting a marked name is noted as a second path to it. */
  lemma DroppedNoted(c: Catalog, s: Search, queue: seq<Link>, problems: seq<Problem>)
    requires Paths(c, s) && Tracks(c, s, queue) && Noted(c, s, problems) && queue != []
    ensures s.pending != [] && Paths(c, Dropped(s))
    ensures Noted(c, Dropped(s), problems + [Circular(queue[0].ref.target)])
  {
    hide LinkAt, NodeAt, Tracks, FaultAt, EndOf;
    StepPaths(c, s, queue);
    var t, path, name := Dropped(s), s.pending[0], queue[0].ref.target;
    forall problem ensures Met(c, t, problem) <==> Met(c, s, problem) || problem == Circular(name) {
      assert problem == Circular(name) ==> path in t.done && path !in t.taken && EndOf(c, path) == problem.name;
      if Met(c, s, problem) && problem.Circular? {
        var p :| p in s.done && p !in s.taken && EndOf(c, p) == problem.name;
        assert p in t.done;
      }
    }
  }

  lemma DropStep(c: Catalog, s: Search, queue: seq<Link>, visited: set<string>, problems: seq<Problem>)
    requires Inv(c, s, queue, visited, problems) && queue != [] && queue[0].ref.target in visited
    ensures s.pending != []
    ensures Inv(c, Dropped(s), queue[1..], visited, problems + [Circular(queue[0].ref.target)])
  {
    hide Paths, Tracks, Grown, Marks, Spread, Noted, Dropped;
    DroppedTracks(c, s, queue);
    DroppedGrown(s);
    DroppedMarks(c, s, queue, visited);
    DroppedSpread(c, s);
    DroppedNoted(c, s, queue, problems);
  }

  lemma ExtensionLinks(c: Catalog, p: Path, link: Link)
    requires p != [] && LinkAt(c, p) == Some(link)
    ensures |Extensions(c, p)| == |LinksBelow(c, link)|
    ensures forall i :: 0 <= i < |Extensions(c, p)| ==>
              Extensions(c, p)[i] == p + [i] && LinkAt(c, p + [i]) == Some(LinksBelow(c, link)[i])
  {
    forall i: nat | i < |Extensions(c, p)|
      ensures LinkAt(c, p + [i]) == Some(LinksBelow(c, link)[i])
    {
      assert (p + [i])[..|p|] == p;
    }
  }

  /** Extensions of a path popped for the first time are new. */
  lemma ExtensionsAreNew(c: Catalog, s: Search, queue: seq<Link>, i: nat)
    requires Paths(c, s) && Tracks(c, s, queue) && Grown(s) && queue != []
    ensures s.pending[0] + [i] !in s.done && s.pending[0] + [i] !in s.pending && s.pending[0] + [i] != s.pending[0]
  {
    hide LinkAt, NodeAt;
    var p := s.pending[0];
    assert (p + [i])[..|p + [i]| - 1] == p && p !in Tree(s);
    assert |p + [i]| == |p| + 1 && p != [];
  }

  lemma PoppedTracks(c: Catalog, s: Search, queue: seq<Link>)
    requires Paths(c, s) && Tracks(c, s, queue) && Grown(s) && queue != []
    ensures s.pending != []
    ensures Tracks(c, Popped(c, s), queue[1..] + LinksBelow(c, queue[0]))
  {
    hide NodeAt, Extensions, LinksBelow, Grown, Paths;
    var p := s.pending[0];
    var t := Popped(c, s);
    ExtensionLinks(c, p, queue[0]);
    var kept := |queue| - 1;
    forall j | 0 <= j < |t.pending|
      ensures t.pending[j] != [] && LinkAt(c, t.pending[j]) == Some((queue[1..] + LinksBelow(c, queue[0]))[j])
      ensures t.pending[j] !in t.done
      ensures forall i :: 0 <= i < j ==> t.pending[i] != t.pending[j]
    {
      if j < kept {
        assert t.pending[j] == s.pending[j + 1];
      } else {
        assert t.pending[j] == p + [j - kept];
        ExtensionsAreNew(c, s, queue, j - kept);
        forall i | 0 <= i < j ensures t.pending[i] != t.pending[j] {
          if i < kept {
            assert t.pending[i] == s.pending[i + 1];
          } else {
            assert t.pending[i] == p + [i - kept];
            assert t.pending[i][|p|] != t.pending[j][|p|];
          }
        }
      }
    }
  }

  lemma PoppedGrown(c: Catalog, s: Search, queue: seq<Link>)
    requires Tracks(c, s, queue) && Grown(s) && queue != []
    ensures Grown(Popped(c, s))
  {
    hide LinkAt, NodeAt, Extensions, LinksBelow;
    var p := s.pending[0];
    var t := Popped(c, s);
    ExtensionLinks(c, p, queue[0]);
    assert Tree(t) == Tree(s) + {p};
    forall j | 0 <= j < |t.pending|
      ensures t.pending[j] != [] && t.pending[j][..|t.pending[j]| - 1] in Tree(t)
    {
      if j < |queue| - 1 {
        assert t.pending[j] == s.pending[j + 1];
      } else {
        assert t.pending[j] == p + [j - (|queue| - 1)];
        assert t.pending[j][..|t.pending[j]| - 1] == p;
      }
    }
  }

  lemma PoppedMarks(c: Catalog, s: Search, queue: seq<Link>, visited: set<string>)
    requires Paths(c, s) && Tracks(c, s, queue) && Marks(c, s, visited)
    requires queue != [] && queue[0].ref.target !in visited
    ensures Paths(c, Popped(c, s)) && Marks(c, Popped(c, s), visited + {queue[0].ref.target})
  {
    hide LinkAt, NodeAt, Extensions, Tracks;
    StepPaths(c, s, queue);
    var p, t := s.pending[0], Popped(c, s);
    assert Tree(t) == Tree(s) + {p};
    forall r | r in Tree(s) ensures EndOf(c, r) in visited {
    }
    forall n | n in visited + {queue[0].ref.target} ensures exists r :: r in Tree(t) && EndOf(c, r) == n {
      if n in visited {
        var r :| r in Tree(s) && EndOf(c, r) == n;
        assert r in Tree(t);
      } else {
        assert p in Tree(t);
      }
    }
  }

  lemma PoppedSpread(c: Catalog, s: Search)
    requires Spread(c, s) && s.pending != []
    ensures Spread(c, Popped(c, s))
  {
    hide Extended, Extensions;
    var t, path := Popped(c, s), s.pending[0];
    forall p | p in Tree(t) ensures Extended(c, t, p) {
      if p == path {
        NowExtended(c, s);
      } else {
        StaysExtended(c, s, t, p);
      }
    }
  }

  lemma NowExtended(c: Catalog, s: Search)
    requires s.pending != []
    ensures Extended(c, Popped(c, s), s.pending[0])
  {
    hide LinkAt, NodeAt, Get;
    var t, p := Popped(c, s), s.pending[0];
    if NodeAt(c, p).Some? {
      forall i: nat | i < |NodeAt(c, p).value.fallback| ensures p + [i] in t.pending {
        assert Extensions(c, p)[i] == p + [i] && p + [i] in Extensions(c, p);
      }
    }
  }

  /** What popping a path for the first time finds at its end. */
  ghost predicate Finds(c: Catalog, link: Link, problem: Problem) {
    (problem == Absent(link.ref.target) && Missing(c, link.ref.target)) || FaultOf(c, link, problem)
  }

  lemma PoppedMet(c: Catalog, s: Search, queue: seq<Link>, problem: Problem)
    requires Paths(c, s) && Tracks(c, s, queue) && queue != []
    ensures s.pending != [] && Paths(c, Popped(c, s))
    ensures Met(c, Popped(c, s), problem) <==> Met(c, s, problem) || Finds(c, queue[0], problem)
  {
    hide NodeAt, FaultOf, Extensions;
    StepPaths(c, s, queue);
    FaultKinds(c, queue[0], problem);
    var t, path := Popped(c, s), s.pending[0];
    assert path in t.taken && (FaultAt(c, path, problem) <==> FaultOf(c, queue[0], problem));
    match problem
    case Circular(name) =>
      assert forall p :: p in t.done && p !in t.taken <==> p in s.done && p !in s.taken;
    case Absent(name) =>
      if Met(c, s, problem) {
        var p :| p in s.taken && EndOf(c, p) == name;
        assert p in t.taken;
      }
    case _ =>
      if Met(c, s, problem) {
        var p :| p in s.taken && FaultAt(c, p, problem);
        assert p in t.taken;
      }
  }

  lemma PoppedNoted(c: Catalog, s: Search, queue: seq<Link>, problems: seq<Problem>, found: seq<Problem>)
    requires Paths(c, s) && Tracks(c, s, queue) && Noted(c, s, problems) && queue != []
    requires forall problem :: problem in found <==> Finds(c, queue[0], problem)
    ensures s.pending != [] && Paths(c, Popped(c, s))
    ensures Noted(c, Popped(c, s), problems + found)
  {
    hide Met, Finds, Paths, Tracks, Popped;
    StepPaths(c, s, queue);
    var t := Popped(c, s);
    forall problem ensures problem in problems + found <==> Met(c, t, problem) {
      PoppedMet(c, s, queue, problem);
    }
  }

  lemma PopStep(c: Catalog, s: Search, queue: seq<Link>, visited: set<string>, problems: seq<Problem>,
                found: seq<Problem>)
    requires Inv(c, s, queue, visited, problems) && queue != [] && queue[0].ref.target !in visited
    requires forall problem :: problem in found <==> Finds(c, queue[0], problem)
    ensures s.pending != []
    ensures Inv(c, Popped(c, s), queue[1..] + LinksBelow(c, queue[0]), visited + {queue[0].ref.target},
                problems + found)
  {
    hide Paths, Tracks, Grown, Marks, Spread, Noted, Popped, LinksBelow, Finds;
    PoppedTracks(c, s, queue);
    PoppedGrown(c, s, queue);
    PoppedMarks(c, s, queue, visited);
    PoppedSpread(c, s);
    PoppedNoted(c, s, queue, problems, found);
  }

  // ---------------------------------------------------------------- the search

  method ModelSet(p: Provider) returns (known: set<string>)
    ensures known == set m | m in p.models
  {
    known := {};
    for i := 0 to |p.models|
      invariant known == set m | m in p.models[..i]
    {
      known := known + {p.models[i]};
      assert p.models[..i + 1] == p.models[..i] + [p.models[i]];
    }
    assert p.models[..|p.models|] == p.models;
  }

  method LinksFrom(p: Provider) returns (links: seq<Link>)
    ensures links == Links(p)
  {
    links := [];
    for i := 0 to |p.fallback|
      invariant links == Links(p)[..i]
    {
      links := links + [Link(p, p.fallback[i])];
    }
  }

  /** The faults of an edge, but for the map entries still to be read. */
  predicate FaultBut(link: Link, child: Provider, todo: set<string>, problem: Problem) {
    && EdgeProblem(link, child, problem)
    && (problem.UnknownKey? ==> problem.key !in todo)
    && (problem.UnknownValue? ==>
          exists k :: k in link.ref.modelMap && k !in todo && link.ref.modelMap[k] == problem.value)
  }

  /** The checks on one readable edge; the model map is read in any order. */
  method JudgeEdge(link: Link, child: Provider) returns (problems: seq<Problem>)
    ensures forall problem :: problem in problems <==> EdgeProblem(link, child, problem)
  {
    hide FormatCompatible;
    var name := link.ref.target;
    problems := [];
    if !FormatCompatible(link.parent.kind, child.kind) {
      problems := problems + [Incompatible(name, child.kind, link.parent.kind)];
    }
    var parentModels := ModelSet(link.parent);
    var childModels := ModelSet(child);
    var todo := link.ref.modelMap.Keys;
    while todo != {}
      invariant todo <= link.ref.modelMap.Keys
      invariant forall problem :: problem in problems <==> FaultBut(link, child, todo, problem)
      decreases |todo|
    {
      var key :| key in todo;
      ghost var before, left := problems, todo;
      todo := todo - {key};
      var value := link.ref.modelMap[key];
      if key !in parentModels {
        problems := problems + [UnknownKey(name, key, link.parent.name)];
      }
      if value !in childModels {
        problems := problems + [UnknownValue(name, value)];
      }
      forall problem ensures problem in problems <==> FaultBut(link, child, todo, problem) {
        ReadEntry(link, child, left, key, problem);
        assert problem in before <==> FaultBut(link, child, left, problem);
      }
    }
  }

  /** Reading one map entry adds its unknown key and its unknown value. */
  lemma ReadEntry(link: Link, child: Provider, todo: set<string>, key: string, problem: Problem)
    requires key in todo && todo <= link.ref.modelMap.Keys
    ensures var value := link.ref.modelMap[key];
            FaultBut(link, child, todo - {key}, problem) <==>
              || FaultBut(link, child, todo, problem)
              || (key !in link.parent.models && problem == UnknownKey(link.ref.target, key, link.parent.name))
              || (value !in child.models && problem == UnknownValue(link.ref.target, value))
  {
    hide FormatCompatible;
    if FaultBut(link, child, todo, problem) && problem.UnknownValue? {
      var k :| k in link.ref.modelMap && k !in todo && link.ref.modelMap[k] == problem.value;
      assert k !in todo - {key};
    }
  }

  ghost function Started(c: Catalog): Search {
    Search({}, {}, Extensions(c, []))
  }

  lemma FirstLink(c: Catalog, i: nat)
    requires i < |c.primary.fallback|
    ensures LinkAt(c, [i]) == Some(Link(c.primary, c.primary.fallback[i]))
  {
    assert [i][..0] == [];
    assert NodeAt(c, []) == Some(c.primary);
  }

  lemma FirstExtensions(c: Catalog)
    ensures |Extensions(c, [])| == |c.primary.fallback|
    ensures forall i: nat :: i < |c.primary.fallback| ==> Extensions(c, [])[i] == [i]
  {
    assert NodeAt(c, []) == Some(c.primary);
  }

  lemma StartTracks(c: Catalog)
    ensures Paths(c, Started(c)) && Tracks(c, Started(c), Links(c.primary)) && Grown(Started(c))
  {
    hide LinkAt, NodeAt, Extensions;
    var s := Started(c);
    FirstExtensions(c);
    forall i: nat | i < |c.primary.fallback| ensures LinkAt(c, s.pending[i]) == Some(Links(c.primary)[i]) {
      FirstLink(c, i);
    }
    forall i, j | 0 <= i < j < |s.pending| ensures s.pending[i] != s.pending[j] {
      assert s.pending[i][0] != s.pending[j][0];
    }
  }

  lemma StartInv(c: Catalog)
    ensures Inv(c, Started(c), Links(c.primary), {c.primary.name}, [])
  {
    hide LinkAt, NodeAt, Extended, Extensions, Grown, Links;
    var s := Started(c);
    StartTracks(c);
    assert Tree(s) == {[]};
    assert [] in Tree(s) && EndOf(c, []) == c.primary.name;
    StartExtended(c);
  }

  lemma StartExtended(c: Catalog)
    ensures Extended(c, Started(c), [])
  {
    var s := Started(c);
    forall i: nat | i < |c.primary.fallback| ensures [] + [i] in s.pending {
      assert s.pending[i] == [] + [i];
    }
  }

  lemma FindsWhen(c: Catalog, link: Link, problem: Problem)
    ensures link.ref.target in c.failing ==> !Finds(c, link, problem)
    ensures link.ref.target !in c.failing && link.ref.target !in c.store ==>
              (Finds(c, link, problem) <==> problem == Absent(link.ref.target))
    ensures link.ref.target !in c.failing && link.ref.target in c.store ==>
              (Finds(c, link, problem) <==> EdgeProblem(link, c.store[link.ref.target], problem))
  {
  }

  lemma LinksBelowIs(c: Catalog, link: Link)
    ensures LinksBelow(c, link) ==
              if link.ref.target in c.failing || link.ref.target !in c.store then []
              else Links(c.store[link.ref.target])
  {
    hide Links;
  }

  /**
    * The report lists, as a set, exactly what is wrong along a tree that spans
    * the providers the primary reaches: every edge that leads to a provider
    * already reached, every missing provider, and every fault of a taken edge.
    * It is empty exactly when each provider is reached along one path and every
    * edge on the way is well declared.
    */
  method ValidateFallback(c: Catalog) returns (problems: seq<Problem>)
    ensures exists tree :: Exact(c, tree, problems)
    ensures problems == [] <==> Clean(c)
  {
    hide Inv, Clean, Exact, Popped, Dropped, Links, LinksBelow, EdgeProblem, Finds;
    problems := [];
    var visited := {c.primary.name};
    var queue := LinksFrom(c.primary);
    ghost var s := Started(c);
    StartInv(c);
    while queue != []
      invariant Inv(c, s, queue, visited, problems)
      decreases c.store.Keys - visited, |queue|
    {
      ghost var before, marked, known := queue, visited, problems;
      var link := queue[0];
      queue := queue[1..];
      if link.ref.target in visited {
        DropStep(c, s, before, marked, known);
        s := Dropped(s);
        problems := problems + [Circular(link.ref.target)];
        continue;
      }
      visited := visited + {link.ref.target};
      LinksBelowIs(c, link);
      assert queue + [] == queue && problems + [] == problems;
      forall problem {
        FindsWhen(c, link, problem);
      }
      if link.ref.target in c.failing {
        PopStep(c, s, before, marked, known, []);
        s := Popped(c, s);
        continue;
      }
      if link.ref.target !in c.store {
        PopStep(c, s, before, marked, known, [Absent(link.ref.target)]);
        s := Popped(c, s);
        problems := problems + [Absent(link.ref.target)];
        continue;
      }
      var child := c.store[link.ref.target];
      var found := JudgeEdge(link, child);
      PopStep(c, s, before, marked, known, found);
      var more := LinksFrom(child);
      s := Popped(c, s);
      problems := problems + found;
      queue := queue + more;
    }
    Finished(c, s, visited, problems);
    ExactReports(c, Tree(s), problems);
  }
}

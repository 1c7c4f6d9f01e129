/**
  * What a validated chain means for the walk: the candidates of a request are
  * the ends of the eligible paths from the primary, each reached along its one
  * path and asked for the composition of that path's model maps.
  */
module FallbackSound {
  import opened Decimal
  import opened FallbackGraph
  import opened FallbackWalk
  import opened FallbackValidator
  import opened FallbackServe

  /** The chain a request walks, as the validator reads it. */
  function CatalogOf(q: Request): Catalog
    requires q.primary in q.store
  {
    Catalog(q.store[q.primary], q.store, {})
  }

  /** The composition of the edge model maps along a path. */
  ghost function ModelAt(c: Catalog, path: Path, model: string): string
    requires IsPath(c, path)
    decreases |path|
  {
    if path == [] then model
    else
      var last := |path| - 1;
      PrefixIsPath(c, path);
      EdgeModel(LinkAt(c, path).value.ref, ModelAt(c, path[..last], model))
  }

  lemma PrefixIsPath(c: Catalog, path: Path)
    requires path != [] && IsPath(c, path)
    ensures IsPath(c, path[..|path| - 1]) && NodeAt(c, path[..|path| - 1]).Some?
  {
    assert NodeAt(c, path[..|path| - 1]).Some?;
  }

  ghost function VisitAt(q: Request, path: Path): Visit
    requires q.primary in q.store && IsPath(CatalogOf(q), path)
  {
    Visit(EndOf(CatalogOf(q), path), ModelAt(CatalogOf(q), path, q.model))
  }

  /** The provider at the end of a path exists and is eligible for the model it is asked for. */
  ghost predicate EligibleAt(q: Request, path: Path)
    requires q.primary in q.store
  {
    && IsPath(CatalogOf(q), path)
    && var v := VisitAt(q, path);
       v.provider in q.store && Eligible(q, q.store[v.provider], v.model)
  }

  ghost predicate EligibleFrom(q: Request, n: nat, path: Path)
    requires q.primary in q.store
  {
    forall k :: n <= k <= |path| ==> EligibleAt(q, path[..k])
  }

  lemma StepFrom(q: Request, path: Path, i: nat)
    requires WellFormed(q)
    requires IsPath(CatalogOf(q), path) && EndOf(CatalogOf(q), path) in q.store
    requires i < |q.store[EndOf(CatalogOf(q), path)].fallback|
    ensures IsPath(CatalogOf(q), path + [i])
    ensures var edge := q.store[EndOf(CatalogOf(q), path)].fallback[i];
            VisitAt(q, path + [i]) == Visit(edge.target, EdgeModel(edge, VisitAt(q, path).model))
  {
    hide Eligible, EdgeModel;
    assert (path + [i])[..|path|] == path;
    assert NodeAt(CatalogOf(q), path) == Some(q.store[EndOf(CatalogOf(q), path)]);
  }

  lemma IndexInRange(q: Request, path: Path, i: nat)
    requires WellFormed(q) && IsPath(CatalogOf(q), path) && EndOf(CatalogOf(q), path) in q.store
    requires IsPath(CatalogOf(q), path + [i])
    ensures i < |q.store[EndOf(CatalogOf(q), path)].fallback|
  {
    assert (path + [i])[..|path|] == path;
    assert NodeAt(CatalogOf(q), path) == Some(q.store[EndOf(CatalogOf(q), path)]);
  }

  // ---------------------------------------------------------------- every candidate has a path

  lemma {:induction false} SubtreePath(q: Request, path: Path, seen: set<string>, v: Visit) returns (x: Path)
    requires WellFormed(q) && IsPath(CatalogOf(q), path) && EndOf(CatalogOf(q), path) in q.store
    requires v in Subtree(q, EndOf(CatalogOf(q), path), VisitAt(q, path).model, seen).visits
    ensures path <= x && EligibleFrom(q, |path|, x) && IsPath(CatalogOf(q), x) && VisitAt(q, x) == v
    decreases q.store.Keys - seen, 0
  {
    hide Eligible, EdgeModel, LinkAt, NodeAt, ModelAt;
    var here := VisitAt(q, path);
    var name := here.provider;
    if v == here {
      x := path;
      assert path[..|path|] == path;
    } else {
      assert q.store[name].fallback[..|q.store[name].fallback|] == q.store[name].fallback;
      x := ChildrenPath(q, path, |q.store[name].fallback|, seen + {name}, v);
      forall k | |path| <= k <= |x| ensures EligibleAt(q, x[..k]) {
        if k == |path| {
          assert x[..k] == path;
        }
      }
    }
  }

  lemma {:induction false} ChildrenPath(q: Request, path: Path, n: nat, seen: set<string>, v: Visit) returns (x: Path)
    requires WellFormed(q) && IsPath(CatalogOf(q), path) && EndOf(CatalogOf(q), path) in q.store
    requires n <= |q.store[EndOf(CatalogOf(q), path)].fallback|
    requires v in Children(q, q.store[EndOf(CatalogOf(q), path)].fallback[..n], VisitAt(q, path).model, seen).visits
    ensures path < x && EligibleFrom(q, |path| + 1, x) && IsPath(CatalogOf(q), x) && VisitAt(q, x) == v
    decreases q.store.Keys - seen, 1 + n
  {
    hide Eligible, EdgeModel, LinkAt, NodeAt, ModelAt, Subtree, EligibleFrom;
    var edges := q.store[EndOf(CatalogOf(q), path)].fallback;
    var model := VisitAt(q, path).model;
    var last := n - 1;
    assert edges[..n][..last] == edges[..last];
    var before := Children(q, edges[..last], model, seen);
    if v in before.visits {
      x := ChildrenPath(q, path, last, seen, v);
    } else {
      StepFrom(q, path, last);
      x := SubtreePath(q, path + [last], before.seen, v);
      assert path < x;
    }
  }

  // ---------------------------------------------------------------- every eligible path is a candidate

  /** A path the walk can follow: every provider before its end is eligible. */
  ghost predicate Live(q: Request, y: Path)
    requires q.primary in q.store
  {
    IsPath(CatalogOf(q), y) && forall k :: 0 <= k < |y| ==> EligibleAt(q, y[..k])
  }

  /** No provider is at the end of two of them. */
  ghost predicate OneLivePath(q: Request)
    requires q.primary in q.store
  {
    forall y: Path, z: Path ::
      Live(q, y) && Live(q, z) && EndOf(CatalogOf(q), y) == EndOf(CatalogOf(q), z) ==> y == z
  }

  lemma LiveStep(q: Request, path: Path, i: nat)
    requires q.primary in q.store && Live(q, path) && EligibleAt(q, path) && IsPath(CatalogOf(q), path + [i])
    ensures Live(q, path + [i])
  {
    hide EligibleAt, IsPath;
    forall k | 0 <= k < |path + [i]|
      ensures EligibleAt(q, (path + [i])[..k])
    {
      if k == |path| {
        assert (path + [i])[..k] == path;
      } else {
        assert (path + [i])[..k] == path[..k];
      }
    }
  }

  /** No node at or below a path is marked. */
  ghost predicate Untouched(q: Request, path: Path, seen: set<string>)
    requires q.primary in q.store
  {
    forall y: Path :: path <= y && Live(q, y) ==> EndOf(CatalogOf(q), y) !in seen
  }

  /** Everything newly marked lies at or below a path. */
  ghost predicate Confined(q: Request, path: Path, seen: set<string>, after: set<string>)
    requires q.primary in q.store
  {
    forall n :: n in after && n !in seen ==> exists y: Path :: path <= y && Live(q, y) && EndOf(CatalogOf(q), y) == n
  }

  /** Everything newly marked lies below one of the first edges of a path's end. */
  ghost predicate ConfinedBelow(q: Request, path: Path, i: nat, seen: set<string>, after: set<string>)
    requires q.primary in q.store
  {
    forall n :: n in after && n !in seen ==>
      exists y: Path :: path < y && y[|path|] < i && Live(q, y) && EndOf(CatalogOf(q), y) == n
  }

  /** With one path to each node, later siblings are untouched by earlier ones. */
  lemma SiblingUntouched(q: Request, path: Path, i: nat, seen: set<string>, after: set<string>)
    requires q.primary in q.store && OneLivePath(q)
    requires Untouched(q, path + [i], seen) && ConfinedBelow(q, path, i, seen, after)
    ensures Untouched(q, path + [i], after)
  {
    hide LinkAt, NodeAt, EligibleAt;
    forall y: Path | path + [i] <= y && Live(q, y) ensures EndOf(CatalogOf(q), y) !in after {
      assert y[|path|] == i;
    }
  }

  lemma ChildUntouched(q: Request, path: Path, i: nat, seen: set<string>)
    requires q.primary in q.store && OneLivePath(q) && Live(q, path) && Untouched(q, path, seen)
    ensures Untouched(q, path + [i], seen + {EndOf(CatalogOf(q), path)})
  {
    hide LinkAt, NodeAt, EligibleAt;
    forall y: Path | path + [i] <= y && Live(q, y)
      ensures EndOf(CatalogOf(q), y) !in seen + {EndOf(CatalogOf(q), path)}
    {
      assert path <= path + [i] && path <= y && y != path;
    }
  }

  lemma ConfinedNext(q: Request, path: Path, i: nat, seen: set<string>, mid: set<string>, after: set<string>)
    requires q.primary in q.store && ConfinedBelow(q, path, i, seen, mid) && Confined(q, path + [i], mid, after)
    ensures ConfinedBelow(q, path, i + 1, seen, after)
  {
    hide LinkAt, NodeAt, EligibleAt;
    forall n | n in after && n !in seen
      ensures exists y: Path :: path < y && y[|path|] < i + 1 && Live(q, y) && EndOf(CatalogOf(q), y) == n
    {
      if n in mid {
        var y: Path :| path < y && y[|path|] < i && Live(q, y) && EndOf(CatalogOf(q), y) == n;
        assert path < y && y[|path|] < i + 1;
      } else {
        var y: Path :| path + [i] <= y && Live(q, y) && EndOf(CatalogOf(q), y) == n;
        assert path < y && y[|path|] == i;
      }
    }
  }

  lemma {:induction false} SubtreeComplete(q: Request, path: Path, seen: set<string>, x: Path)
    requires WellFormed(q) && OneLivePath(q)
    requires Live(q, path) && EndOf(CatalogOf(q), path) in q.store
    requires Untouched(q, path, seen)
    ensures var r := Subtree(q, EndOf(CatalogOf(q), path), VisitAt(q, path).model, seen);
            && Confined(q, path, seen, r.seen)
            && (path <= x && EligibleFrom(q, |path|, x) && IsPath(CatalogOf(q), x) ==> VisitAt(q, x) in r.visits)
    decreases q.store.Keys - seen, 0
  {
    hide EdgeModel, LinkAt, NodeAt, ModelAt, Eligible, OneLivePath;
    var c, here := CatalogOf(q), VisitAt(q, path);
    var name, edges := here.provider, q.store[here.provider].fallback;
    assert path <= path;
    assert name !in seen;
    if path <= x && EligibleFrom(q, |path|, x) {
      assert x[..|path|] == path && EligibleAt(q, x[..|path|]);
    }
    if Eligible(q, q.store[name], here.model) {
      assert edges[..|edges|] == edges;
      assert path <= x && x != path ==> path < x;
      UntouchedBelow(q, path, seen);
      ChildrenComplete(q, path, |edges|, seen + {name}, x);
      if path < x && EligibleFrom(q, |path|, x) {
        assert x[..|path| + 1] == path + [x[|path|]] && EligibleAt(q, x[..|path| + 1]);
        IndexInRange(q, path, x[|path|]);
        assert EligibleFrom(q, |path| + 1, x);
      }
      var below := Children(q, edges, here.model, seen + {name});
      forall n | n in below.seen && n !in seen
        ensures exists y: Path :: path <= y && Live(q, y) && EndOf(CatalogOf(q), y) == n
      {
        if n != name {
          var y: Path :| path < y && y[|path|] < |edges| && Live(q, y) && EndOf(CatalogOf(q), y) == n;
          assert path <= y;
        }
      }
    }
  }

  /** No node strictly below a path is marked. */
  ghost predicate AllUntouched(q: Request, path: Path, seen: set<string>)
    requires q.primary in q.store
  {
    forall i: nat {:trigger path + [i]} :: Untouched(q, path + [i], seen)
  }

  lemma UntouchedBelow(q: Request, path: Path, seen: set<string>)
    requires q.primary in q.store && OneLivePath(q) && Live(q, path) && Untouched(q, path, seen)
    ensures AllUntouched(q, path, seen + {EndOf(CatalogOf(q), path)})
  {
    hide LinkAt, NodeAt, OneLivePath, Untouched, IsPath, EligibleAt;
    forall i: nat ensures Untouched(q, path + [i], seen + {EndOf(CatalogOf(q), path)}) {
      ChildUntouched(q, path, i, seen);
    }
  }

  lemma {:induction false} ChildrenComplete(q: Request, path: Path, n: nat, seen: set<string>, x: Path)
    requires WellFormed(q) && OneLivePath(q)
    requires Live(q, path) && EligibleAt(q, path) && EndOf(CatalogOf(q), path) in q.store
    requires n <= |q.store[EndOf(CatalogOf(q), path)].fallback|
    requires AllUntouched(q, path, seen)
    ensures var r := Children(q, q.store[EndOf(CatalogOf(q), path)].fallback[..n], VisitAt(q, path).model, seen);
            && ConfinedBelow(q, path, n, seen, r.seen)
            && (path < x && x[|path|] < n && EligibleFrom(q, |path| + 1, x) && IsPath(CatalogOf(q), x)
                ==> VisitAt(q, x) in r.visits)
    decreases q.store.Keys - seen, 1 + n
  {
    hide EdgeModel, LinkAt, NodeAt, ModelAt, Eligible, OneLivePath, Subtree, Untouched, ConfinedBelow, Confined;
    var c := CatalogOf(q);
    var edges, model := q.store[EndOf(CatalogOf(q), path)].fallback, VisitAt(q, path).model;
    if n == 0 {
      NothingConfined(q, path, seen);
    } else {
      var last := n - 1;
      assert edges[..n][..last] == edges[..last];
      ChildrenComplete(q, path, last, seen, x);
      var before := Children(q, edges[..last], model, seen);
      StepFrom(q, path, last);
      LiveStep(q, path, last);
      assert Untouched(q, path + [last], seen);
      if edges[last].target in q.store {
        SiblingUntouched(q, path, last, seen, before.seen);
        SubtreeComplete(q, path + [last], before.seen, x);
        var below := Subtree(q, edges[last].target, EdgeModel(edges[last], model), before.seen);
        ConfinedNext(q, path, last, seen, before.seen, below.seen);
      } else {
        NothingBelow(q, path, last, seen, before.seen);
      }
      if path < x && x[|path|] == last && EligibleFrom(q, |path| + 1, x) {
        assert x[..|path| + 1] == path + [last];
        assert path + [last] <= x && EligibleAt(q, path + [last]);
      }
    }
  }

  lemma NothingConfined(q: Request, path: Path, seen: set<string>)
    requires q.primary in q.store
    ensures ConfinedBelow(q, path, 0, seen, seen)
  {
  }

  lemma NothingBelow(q: Request, path: Path, i: nat, seen: set<string>, after: set<string>)
    requires q.primary in q.store && ConfinedBelow(q, path, i, seen, after)
    ensures ConfinedBelow(q, path, i + 1, seen, after)
  {
    hide LinkAt, NodeAt, EligibleAt;
    forall n | n in after && n !in seen
      ensures exists y: Path :: path < y && y[|path|] < i + 1 && Live(q, y) && EndOf(CatalogOf(q), y) == n
    {
      var y: Path :| path < y && y[|path|] < i && Live(q, y) && EndOf(CatalogOf(q), y) == n;
      assert path < y && y[|path|] < i + 1;
    }
  }

  // ---------------------------------------------------------------- the main results

  /** A candidate of a validated chain has one path, and is asked for that path's model. */
  lemma CandidateHasOnePath(q: Request, v: Visit) returns (x: Path)
    requires WellFormed(q) && Clean(CatalogOf(q)) && v in Candidates(q)
    ensures EligibleFrom(q, 0, x) && IsPath(CatalogOf(q), x) && VisitAt(q, x) == v
    ensures forall r: Path :: IsPath(CatalogOf(q), r) && EndOf(CatalogOf(q), r) == v.provider ==> r == x
  {
    hide Eligible, EdgeModel, LinkAt, NodeAt, Subtree, EligibleFrom;
    assert IsPath(CatalogOf(q), []) && VisitAt(q, []) == Visit(q.primary, q.model);
    x := SubtreePath(q, [], {}, v);
  }

  /** Conversely, where no provider has two live paths, every path of eligible providers ends at a candidate. */
  lemma EligiblePathIsCandidate(q: Request, x: Path)
    requires WellFormed(q) && OneLivePath(q)
    requires EligibleFrom(q, 0, x) && IsPath(CatalogOf(q), x)
    ensures VisitAt(q, x) in Candidates(q)
  {
    hide Eligible, EdgeModel, LinkAt, NodeAt, Subtree, EligibleFrom, OneLivePath;
    assert IsPath(CatalogOf(q), []) && VisitAt(q, []) == Visit(q.primary, q.model);
    SubtreeComplete(q, [], {}, x);
  }

  /** A validated chain is one of those. */
  lemma ValidatedHasOneLivePath(q: Request)
    requires WellFormed(q) && Clean(CatalogOf(q))
    ensures OneLivePath(q)
  {
    hide LinkAt, NodeAt, EligibleAt, EdgesOk;
  }

  /** Edge-wise compatibility reaches the whole chain: rule 12 never fires on a validated one. */
  lemma {:induction false} FormatsAgree(q: Request, path: Path)
    requires WellFormed(q) && Clean(CatalogOf(q)) && IsPath(CatalogOf(q), path)
    ensures EndOf(CatalogOf(q), path) in q.store
    ensures FormatCompatible(q.store[q.primary].kind, q.store[EndOf(CatalogOf(q), path)].kind)
    decreases |path|
  {
    if path != [] {
      var c, init := CatalogOf(q), path[..|path| - 1];
      PrefixIsPath(c, path);
      FormatsAgree(q, init);
      assert EdgeOk(c, LinkAt(c, path).value);
      assert NodeAt(c, init) == Some(q.store[EndOf(c, init)]);
      CompatibleTransitive(q.store[q.primary].kind, q.store[EndOf(c, init)].kind, q.store[EndOf(c, path)].kind);
    }
  }

  // ---------------------------------------------------------------- when some providers could not be read

  /** The same chain as the validator sees it when reads of some providers fail. */
  function ReadAs(q: Request, failing: set<string>): Catalog
    requires q.primary in q.store
  {
    Catalog(q.store[q.primary], q.store, failing)
  }

  /** A path that goes on from a provider the validator could not read. */
  ghost predicate PassesUnread(q: Request, failing: set<string>, x: Path)
    requires q.primary in q.store
  {
    exists k :: 0 < k < |x| && IsPath(CatalogOf(q), x[..k]) && EndOf(CatalogOf(q), x[..k]) in failing
  }

  /** The validator follows exactly the paths that do not. */
  lemma {:induction false} ReadPaths(q: Request, failing: set<string>, x: Path)
    requires q.primary in q.store
    ensures IsPath(ReadAs(q, failing), x) <==> IsPath(CatalogOf(q), x) && !PassesUnread(q, failing, x)
    ensures x != [] && IsPath(ReadAs(q, failing), x) ==> LinkAt(ReadAs(q, failing), x) == LinkAt(CatalogOf(q), x)
    decreases |x|
  {
    if x != [] {
      var init := x[..|x| - 1];
      ReadPaths(q, failing, init);
      PassesLater(q, failing, x);
      if IsPath(CatalogOf(q), x) {
        PrefixIsPath(CatalogOf(q), x);
      }
      if IsPath(ReadAs(q, failing), x) {
        PrefixIsPath(ReadAs(q, failing), x);
      }
      if IsPath(ReadAs(q, failing), init) {
        NodeRead(q, failing, init);
      }
    }
  }

  lemma NodeRead(q: Request, failing: set<string>, x: Path)
    requires q.primary in q.store && IsPath(ReadAs(q, failing), x) && IsPath(CatalogOf(q), x)
    requires x != [] ==> LinkAt(ReadAs(q, failing), x) == LinkAt(CatalogOf(q), x)
    ensures NodeAt(ReadAs(q, failing), x) ==
            if x != [] && EndOf(CatalogOf(q), x) in failing then None else NodeAt(CatalogOf(q), x)
  {
  }

  lemma PassesLater(q: Request, failing: set<string>, x: Path)
    requires q.primary in q.store && x != []
    ensures var init := x[..|x| - 1];
            PassesUnread(q, failing, x) <==>
            PassesUnread(q, failing, init)
            || (init != [] && IsPath(CatalogOf(q), init) && EndOf(CatalogOf(q), init) in failing)
  {
    hide LinkAt, NodeAt;
    var n := |x| - 1;
    var init := x[..n];
    if PassesUnread(q, failing, init) {
      var k :| 0 < k < n && IsPath(CatalogOf(q), init[..k]) && EndOf(CatalogOf(q), init[..k]) in failing;
      assert x[..k] == init[..k];
    }
    if PassesUnread(q, failing, x) {
      var k :| 0 < k < |x| && IsPath(CatalogOf(q), x[..k]) && EndOf(CatalogOf(q), x[..k]) in failing;
      if k < n {
        assert x[..k] == init[..k];
      }
    }
  }

  /**
    * What a validation with failed reads still says of a candidate: either the
    * walk came to it through a provider that was not read, or it came along the
    * one path to it the validator knows.
    */
  lemma PartlyReadCandidate(q: Request, failing: set<string>, v: Visit) returns (x: Path)
    requires WellFormed(q) && Clean(ReadAs(q, failing)) && v in Candidates(q)
    ensures EligibleFrom(q, 0, x) && IsPath(CatalogOf(q), x) && VisitAt(q, x) == v
    ensures
      || PassesUnread(q, failing, x)
      || (IsPath(ReadAs(q, failing), x)
          && forall r: Path :: IsPath(ReadAs(q, failing), r) && EndOf(ReadAs(q, failing), r) == v.provider ==> r == x)
  {
    hide Eligible, EdgeModel, LinkAt, NodeAt, Subtree, EligibleFrom, PassesUnread;
    assert IsPath(CatalogOf(q), []) && VisitAt(q, []) == Visit(q.primary, q.model);
    x := SubtreePath(q, [], {}, v);
    ReadPaths(q, failing, x);
  }

  /**
    * And of the whole walk: when no eligible path leads to an unread provider,
    * the chain is as good as fully validated for this request.
    */
  lemma PartlyReadHasOneLivePath(q: Request, failing: set<string>)
    requires WellFormed(q) && Clean(ReadAs(q, failing))
    requires forall x: Path :: x != [] && IsPath(CatalogOf(q), x) && EligibleFrom(q, 0, x) ==>
               EndOf(CatalogOf(q), x) !in failing
    ensures OneLivePath(q)
  {
    hide LinkAt, NodeAt, EligibleAt, EdgesOk;
    forall y: Path | Live(q, y)
      ensures IsPath(ReadAs(q, failing), y) && EndOf(ReadAs(q, failing), y) == EndOf(CatalogOf(q), y)
    {
      ReadPaths(q, failing, y);
      forall k | 0 < k < |y| && IsPath(CatalogOf(q), y[..k])
        ensures EndOf(CatalogOf(q), y[..k]) !in failing
      {
        forall m | 0 <= m <= k
          ensures EligibleAt(q, y[..k][..m])
        {
          assert y[..k][..m] == y[..m];
        }
        assert EligibleFrom(q, 0, y[..k]);
      }
    }
  }

  // ---------------------------------------------------------------- a cycle hidden by a failed read

  const LOOP_A := Provider("a", ANTHROPIC, [], [Edge("b", map[])])
  const LOOP_B := Provider("b", ANTHROPIC, [], [Edge("a", map[])])
  const LOOP := map["a" := LOOP_A, "b" := LOOP_B]

  lemma {:induction false} LoopReads(p: Path)
    ensures NodeAt(Catalog(LOOP_A, LOOP, {"b"}), p).Some? ==> p == []
    decreases |p|
  {
    if p != [] {
      var c, init := Catalog(LOOP_A, LOOP, {"b"}), p[..|p| - 1];
      LoopReads(init);
      if NodeAt(c, init).Some? {
        assert NodeAt(c, []) == Some(LOOP_A);
        assert LinkAt(c, p).Some? ==> LinkAt(c, p).value.ref.target == "b";
      }
    }
  }

  /** With `b` unreadable the loop a, b, a passes validation; read in full it does not. */
  lemma FailedReadHidesCycle()
    ensures Clean(Catalog(LOOP_A, LOOP, {"b"})) && !Clean(Catalog(LOOP_A, LOOP, {}))
  {
    var partial, full := Catalog(LOOP_A, LOOP, {"b"}), Catalog(LOOP_A, LOOP, {});
    forall p: Path | p != [] && IsPath(partial, p)
      ensures p == [0] && LinkAt(partial, p) == Some(Link(LOOP_A, Edge("b", map[])))
    {
      LoopReads(p[..|p| - 1]);
    }
    assert [0, 0][..1] == [0] && [0][..0] == [];
    assert NodeAt(full, []) == Some(LOOP_A);
    assert LinkAt(full, [0]) == Some(Link(LOOP_A, Edge("b", map[])));
    assert NodeAt(full, [0]) == Some(LOOP_B);
    assert IsPath(full, [0, 0]) && EndOf(full, [0, 0]) == "a" == EndOf(full, []);
  }
}

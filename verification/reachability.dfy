/** Reachability along directed edges, as a fixpoint, as paths, and as the loop that computes it. */
module Reachability {
  import opened Wrappers

  type Id = string

  datatype Edge = Edge(src: Id, dst: Id)

  function Expand(edges: set<Edge>, scope: set<Id>): (r: set<Id>) {
    scope + set e | e in edges && e.src in scope :: e.dst
  }

  function Targets(edges: set<Edge>): set<Id> {
    set e | e in edges :: e.dst
  }

  lemma ExpandGrows(edges: set<Edge>, scope: set<Id>)
    requires Expand(edges, scope) != scope
    ensures |Targets(edges) - Expand(edges, scope)| < |Targets(edges) - scope|
  {
    var grown := Expand(edges, scope);
    var x :| x in grown && x !in scope;
    assert x in Targets(edges) - scope;
    Fewer(Targets(edges) - grown, Targets(edges) - scope - {x});
  }

  /** Expansion up to its fixpoint. */
  function Closure(edges: set<Edge>, scope: set<Id>): (r: set<Id>)
    ensures scope <= r && Expand(edges, r) == r
    decreases |Targets(edges) - scope|
  {
    var grown := Expand(edges, scope);
    if grown == scope then scope else ExpandGrows(edges, scope); Closure(edges, grown)
  }

  /** Consecutive elements are bound, first to last. */
  predicate Path(edges: set<Edge>, p: seq<Id>) {
    p != [] && forall i {:trigger p[i]} :: 0 <= i < |p| - 1 ==> Bound(edges, p[i], p[i + 1])
  }

  predicate Bound(edges: set<Edge>, a: Id, b: Id) {
    Edge(a, b) in edges
  }

  ghost predicate Reaches(edges: set<Edge>, roots: set<Id>, x: Id) {
    exists p :: Path(edges, p) && p[0] in roots && p[|p| - 1] == x
  }

  /** The closure is exactly what some path of bound issues reaches from the roots. */
  lemma ClosureIsReach(edges: set<Edge>, roots: set<Id>, x: Id)
    ensures x in Closure(edges, roots) <==> Reaches(edges, roots, x)
  {
    if x in Closure(edges, roots) {
      forall y <- roots
        ensures Reaches(edges, roots, y)
      {
        assert Path(edges, [y]);
      }
      ClosureReaches(edges, roots, roots, x);
    }
    if Reaches(edges, roots, x) {
      var p :| Path(edges, p) && p[0] in roots && p[|p| - 1] == x;
      PathStays(edges, Closure(edges, roots), p);
    }
  }

  lemma {:induction false} ClosureReaches(edges: set<Edge>, roots: set<Id>, scope: set<Id>, x: Id)
    requires forall y <- scope :: Reaches(edges, roots, y)
    requires x in Closure(edges, scope)
    ensures Reaches(edges, roots, x)
    decreases |Targets(edges) - scope|
  {
    var grown := Expand(edges, scope);
    if grown != scope {
      forall y <- grown
        ensures Reaches(edges, roots, y)
      {
        if y !in scope {
          var e :| e in edges && e.src in scope && e.dst == y;
          var p :| Path(edges, p) && p[0] in roots && p[|p| - 1] == e.src;
          assert Path(edges, p + [y]) by {
            forall i | 0 <= i < |p|
              ensures Bound(edges, (p + [y])[i], (p + [y])[i + 1])
            {
              assert i == |p| - 1 || Bound(edges, p[i], p[i + 1]);
            }
          }
        }
      }
      ExpandGrows(edges, scope);
      ClosureReaches(edges, roots, grown, x);
    }
  }

  lemma {:induction false} PathStays(edges: set<Edge>, closed: set<Id>, p: seq<Id>)
    requires Expand(edges, closed) == closed && Path(edges, p) && p[0] in closed
    ensures p[|p| - 1] in closed
  {
    if |p| > 1 {
      assert Bound(edges, p[0], p[1]);
      assert Edge(p[0], p[1]).dst in Expand(edges, closed);
      assert Path(edges, p[1..]) by {
        forall i | 0 <= i < |p| - 2
          ensures Bound(edges, p[1..][i], p[1..][i + 1])
        {
          assert Bound(edges, p[i + 1], p[i + 2]);
        }
      }
      PathStays(edges, closed, p[1..]);
    }
  }

  /** Any closed set above the roots contains the closure. */
  lemma {:induction false} ClosureLeast(edges: set<Edge>, scope: set<Id>, closed: set<Id>)
    requires scope <= closed && Expand(edges, closed) == closed
    ensures Closure(edges, scope) <= closed
    decreases |Targets(edges) - scope|
  {
    var grown := Expand(edges, scope);
    if grown != scope {
      assert grown <= Expand(edges, closed);
      ExpandGrows(edges, scope);
      ClosureLeast(edges, grown, closed);
    }
  }

  /** The loop that computes it. */
  method Scope(edges: set<Edge>, roots: set<Id>) returns (scope: set<Id>)
    ensures scope == Closure(edges, roots)
    ensures forall x :: x in scope <==> Reaches(edges, roots, x)
  {
    scope := roots;
    while true
      invariant Closure(edges, scope) == Closure(edges, roots)
      decreases |Targets(edges) - scope|
    {
      var expanded := Expand(edges, scope);
      if expanded == scope {
        break;
      }
      ExpandGrows(edges, scope);
      scope := expanded;
    }
    forall x
      ensures x in scope <==> Reaches(edges, roots, x)
    {
      ClosureIsReach(edges, roots, x);
    }
  }

  function Backwards(edges: set<Edge>): set<Edge> {
    set e | e in edges :: Edge(e.dst, e.src)
  }

  /** Following every edge backwards reaches exactly what reaches the start. */
  lemma BackwardsReaches(edges: set<Edge>, a: Id, b: Id)
    ensures Reaches(edges, {a}, b) <==> Reaches(Backwards(edges), {b}, a)
  {
    if Reaches(edges, {a}, b) {
      ReachesBack(edges, a, b);
    }
    if Reaches(Backwards(edges), {b}, a) {
      ReachesBack(Backwards(edges), b, a);
      BackwardsTwice(edges);
    }
  }

  lemma ReachesBack(edges: set<Edge>, a: Id, b: Id)
    requires Reaches(edges, {a}, b)
    ensures Reaches(Backwards(edges), {b}, a)
  {
    var p :| Path(edges, p) && p[0] in {a} && p[|p| - 1] == b;
    PathBackwards(edges, p);
  }

  /** One root at a time. */
  lemma ReachesFromOne(edges: set<Edge>, roots: set<Id>, x: Id)
    ensures Reaches(edges, roots, x) <==> exists a <- roots :: Reaches(edges, {a}, x)
  {
  }

  function Mirrored(p: seq<Id>): (r: seq<Id>)
    ensures |r| == |p| && forall i :: 0 <= i < |p| ==> r[i] == p[|p| - 1 - i]
  {
    seq(|p|, i requires 0 <= i < |p| => p[|p| - 1 - i])
  }

  lemma BackwardsTwice(edges: set<Edge>)
    ensures Backwards(Backwards(edges)) == edges
  {
  }

  lemma PathBackwards(edges: set<Edge>, p: seq<Id>)
    requires Path(edges, p)
    ensures Path(Backwards(edges), Mirrored(p)) && Mirrored(p)[0] == p[|p| - 1] && Mirrored(p)[|p| - 1] == p[0]
  {
  }
}

/**
 The lineage of an append-only artifact index: parents precede children, so one
 pass forwards finds every descendant and one pass backwards every ancestor.
 */
module Lineage {
  import opened Wrappers
  import opened Reachability

  datatype Artifact = Artifact(sha: Id, supersedes: seq<Id>)

  function Shas(index: seq<Artifact>): set<Id> {
    set a | a in index :: a.sha
  }

  /** Named among the first `n`. */
  predicate Listed(index: seq<Artifact>, n: nat, x: Id)
    requires n <= |index|
  {
    exists k :: 0 <= k < n && index[k].sha == x
  }

  predicate Accepted(index: seq<Artifact>) {
    forall i :: 0 <= i < |index| ==>
      !Listed(index, i, index[i].sha) && forall parent <- index[i].supersedes :: Listed(index, i, parent)
  }

  function EdgesOf(a: Artifact): set<Edge> {
    set parent | parent in a.supersedes :: Edge(parent, a.sha)
  }

  /** From each parent to the artifact that supersedes it. */
  function Edges(index: seq<Artifact>): set<Edge> {
    if index == [] then {} else EdgesOf(index[0]) + Edges(index[1..])
  }

  lemma {:induction false} EdgesAppend(front: seq<Artifact>, back: seq<Artifact>)
    ensures Edges(front + back) == Edges(front) + Edges(back)
  {
    if front == [] {
      assert front + back == back;
    } else {
      EdgesAppend(front[1..], back);
      assert (front + back)[1..] == front[1..] + back;
    }
  }

  lemma {:induction false} EdgesMember(index: seq<Artifact>, e: Edge)
    ensures e in Edges(index) <==> exists a <- index :: a.sha == e.dst && e.src in a.supersedes
  {
    if index != [] {
      EdgesMember(index[1..], e);
      assert forall a :: a in index <==> a == index[0] || a in index[1..];
    }
  }

  /** Accepts an index exactly when parents precede children and nothing is listed twice. */
  method Accept(index: seq<Artifact>) returns (ok: bool)
    ensures ok <==> Accepted(index)
  {
    var seen := {};
    for i := 0 to |index|
      invariant forall x :: x in seen <==> Listed(index, i, x)
      invariant forall k :: 0 <= k < i ==>
        !Listed(index, k, index[k].sha) && forall parent <- index[k].supersedes :: Listed(index, k, parent)
    {
      if index[i].sha in seen || exists parent <- index[i].supersedes :: parent !in seen {
        return false;
      }
      seen := seen + {index[i].sha};
    }
    ok := true;
  }

  /** New edges into places that nothing leaves extend the closure by one expansion. */
  lemma ClosureExtends(edges: set<Edge>, added: set<Edge>, roots: set<Id>)
    requires forall e <- added, f <- edges + added :: f.src != e.dst
    ensures Closure(edges + added, roots) == Expand(added, Closure(edges, roots))
  {
    var (was, now) := (Closure(edges, roots), Closure(edges + added, roots));
    var grown := Expand(added, was);
    forall x <- Expand(edges + added, grown)
      ensures x in grown
    {
      if e :| e in edges + added && e.src in grown && e.dst == x {
        assert e.src in was;
        assert e in edges ==> x in Expand(edges, was);
      }
    }
    ClosureLeast(edges + added, roots, grown);
    assert Expand(edges, now) <= Expand(edges + added, now);
    ClosureLeast(edges, roots, now);
    assert grown <= Expand(edges + added, now);
  }

  /** The edges of a part of the index come from before, and lead to, that part. */
  lemma EdgesWithin(index: seq<Artifact>, i: nat, e: Edge)
    requires Accepted(index) && i <= |index|
    ensures e in Edges(index[..i]) ==> Listed(index, i, e.src)
    ensures e in Edges(index[i..]) ==> !Listed(index, i, e.dst)
  {
    if e in Edges(index[..i]) {
      EdgesMember(index[..i], e);
      var k :| 0 <= k < i && index[k].sha == e.dst && e.src in index[k].supersedes;
      assert Listed(index, k, e.src);
    }
    if e in Edges(index[i..]) {
      EdgesMember(index[i..], e);
      var k :| i <= k < |index| && index[k].sha == e.dst && e.src in index[k].supersedes;
      assert !Listed(index, k, e.dst);
    }
  }

  /** One pass forwards finds exactly what descends from the root. */
  method Descendants(index: seq<Artifact>, root: Id) returns (reach: set<Id>)
    requires Accepted(index)
    ensures reach == Closure(Edges(index), {root})
    ensures forall x :: x in reach <==> Reaches(Edges(index), {root}, x)
  {
    hide Accepted, Closure, Reaches;
    reach := {root};
    ClosureOfNothing(reach);
    for i := 0 to |index|
      invariant reach == Closure(Edges(index[..i]), {root})
    {
      ForwardStep(index, i, root);
      if exists parent <- index[i].supersedes :: parent in reach {
        reach := reach + {index[i].sha};
      }
    }
    assert index[..|index|] == index;
    forall x
      ensures x in reach <==> Reaches(Edges(index), {root}, x)
    {
      ClosureIsReach(Edges(index), {root}, x);
    }
  }

  lemma ClosureOfNothing(roots: set<Id>)
    ensures Closure({}, roots) == roots
  {
  }

  lemma ForwardStep(index: seq<Artifact>, i: nat, root: Id)
    requires Accepted(index) && i < |index|
    ensures var was := Closure(Edges(index[..i]), {root});
            Closure(Edges(index[..i + 1]), {root})
            == if exists parent <- index[i].supersedes :: parent in was then was + {index[i].sha} else was
  {
    var (edges, added) := (Edges(index[..i]), EdgesOf(index[i]));
    assert index[..i + 1] == index[..i] + [index[i]];
    EdgesAppend(index[..i], [index[i]]);
    assert Edges([index[i]]) == added;
    forall e: Edge, f: Edge | e in added && f in edges + added
      ensures f.src != e.dst
    {
      EdgesWithin(index, i, f);
    }
    ClosureExtends(edges, added, {root});
    var was := Closure(edges, {root});
    if parent :| parent in index[i].supersedes && parent in was {
      assert Edge(parent, index[i].sha) in added;
    }
  }

  lemma BackwardStep(index: seq<Artifact>, i: nat, head: Id)
    requires Accepted(index) && i < |index|
    ensures var was := Closure(Backwards(Edges(index[i + 1..])), {head});
            Closure(Backwards(Edges(index[i..])), {head})
            == if index[i].sha in was then was + (set p | p in index[i].supersedes) else was
  {
    var (edges, added) := (Backwards(Edges(index[i + 1..])), Backwards(EdgesOf(index[i])));
    assert index[i..] == [index[i]] + index[i + 1..];
    assert Backwards(Edges(index[i..])) == edges + added;
    forall e: Edge, f: Edge | e in added && f in edges + added
      ensures f.src != e.dst
    {
      assert Listed(index, i, e.dst);
      if f in edges {
        EdgesWithin(index, i + 1, Edge(f.dst, f.src));
      }
    }
    ClosureExtends(edges, added, {head});
    var was := Closure(edges, {head});
    forall p <- index[i].supersedes
      ensures Edge(index[i].sha, p) in added
    {
      assert Edge(p, index[i].sha) in EdgesOf(index[i]);
    }
  }

  /** The shas of the index that are in the set, in index order. */
  function Select(index: seq<Artifact>, chosen: set<Id>): (r: seq<Id>)
    ensures forall x :: x in r <==> x in chosen && x in Shas(index)
  {
    if index == [] then []
    else
      var rest := Select(index[1..], chosen);
      assert forall a :: a in index <==> a == index[0] || a in index[1..];
      if index[0].sha in chosen then [index[0].sha] + rest else rest
  }

  /** One pass backwards finds exactly the ancestors, in index order. */
  method Ancestors(index: seq<Artifact>, head: Id) returns (lineage: seq<Id>, reach: set<Id>)
    requires Accepted(index)
    ensures lineage == Select(index, reach)
    ensures forall x :: x in reach <==> Reaches(Edges(index), {x}, head)
  {
    hide Accepted, Closure, Reaches, Select;
    reach := {head};
    assert index[|index|..] == [] && Backwards({}) == {};
    ClosureOfNothing(reach);
    for i := |index| downto 0
      invariant reach == Closure(Backwards(Edges(index[i..])), {head})
    {
      BackwardStep(index, i, head);
      if index[i].sha in reach {
        reach := reach + set p | p in index[i].supersedes;
      }
    }
    assert index[0..] == index;
    forall x
      ensures x in reach <==> Reaches(Edges(index), {x}, head)
    {
      ClosureIsReach(Backwards(Edges(index)), {head}, x);
      BackwardsReaches(Edges(index), x, head);
    }
    lineage := Select(index, reach);
  }

  // Views.

  datatype View = View(document: Id, lineage: seq<Id>)

  predicate IsHead(index: seq<Artifact>, x: Id) {
    x in Shas(index) && forall a <- index :: x !in a.supersedes
  }

  predicate IsOriginal(index: seq<Artifact>, x: Id) {
    exists a <- index :: a.sha == x && a.supersedes == []
  }

  /** Some original has two current heads. */
  ghost predicate Conflicted(index: seq<Artifact>) {
    exists root, h, h' :: IsOriginal(index, root) && IsHead(index, h) && IsHead(index, h') && h != h'
      && Reaches(Edges(index), {root}, h) && Reaches(Edges(index), {root}, h')
  }

  lemma ReachesTransitive(edges: set<Edge>, a: Id, b: Id, c: Id)
    requires Reaches(edges, {a}, b) && Reaches(edges, {b}, c)
    ensures Reaches(edges, {a}, c)
  {
    ClosureIsReach(edges, {a}, b);
    ClosureIsReach(edges, {b}, c);
    ClosureLeast(edges, {b}, Closure(edges, {a}));
    ClosureIsReach(edges, {a}, c);
  }

  lemma ReachesStep(index: seq<Artifact>, a: Artifact, parent: Id)
    requires a in index && parent in a.supersedes
    ensures Reaches(Edges(index), {parent}, a.sha)
  {
    EdgesMember(index, Edge(parent, a.sha));
    assert Path(Edges(index), [parent, a.sha]) by {
      assert Bound(Edges(index), parent, a.sha);
    }
  }

  lemma ReachesSelf(edges: set<Edge>, x: Id)
    ensures Reaches(edges, {x}, x)
  {
    assert Path(edges, [x]);
  }

  /** Whatever is in the index descends from an original. */
  lemma {:induction false} FromOriginal(index: seq<Artifact>, i: nat) returns (root: Id)
    requires Accepted(index) && i < |index|
    ensures IsOriginal(index, root) && Reaches(Edges(index), {root}, index[i].sha)
    decreases i
  {
    hide Reaches, Edges;
    if index[i].supersedes == [] {
      ReachesSelf(Edges(index), index[i].sha);
      root := index[i].sha;
    } else {
      var parent := index[i].supersedes[0];
      assert Listed(index, i, parent);
      var k :| 0 <= k < i && index[k].sha == parent;
      root := FromOriginal(index, k);
      ReachesStep(index, index[i], parent);
      ReachesTransitive(Edges(index), root, parent, index[i].sha);
    }
  }

  /** And leads to a head. */
  lemma {:induction false} ToHead(index: seq<Artifact>, i: nat) returns (head: Id)
    requires Accepted(index) && i < |index|
    ensures IsHead(index, head) && Reaches(Edges(index), {index[i].sha}, head)
    decreases |index| - i
  {
    hide Reaches, Edges;
    if k :| 0 <= k < |index| && index[i].sha in index[k].supersedes {
      assert Listed(index, k, index[i].sha) && !Listed(index, i, index[i].sha);
      head := ToHead(index, k);
      ReachesStep(index, index[k], index[i].sha);
      ReachesTransitive(Edges(index), index[i].sha, index[k].sha, head);
    } else {
      ReachesSelf(Edges(index), index[i].sha);
      head := index[i].sha;
    }
  }

  /** Each artifact of an index without conflict leads to exactly one head. */
  lemma OneHead(index: seq<Artifact>, x: Id, h: Id, h': Id)
    requires Accepted(index) && !Conflicted(index) && x in Shas(index) && IsHead(index, h) && IsHead(index, h')
    requires Reaches(Edges(index), {x}, h) && Reaches(Edges(index), {x}, h')
    ensures h == h'
  {
    var i :| 0 <= i < |index| && index[i].sha == x;
    var root := FromOriginal(index, i);
    ReachesTransitive(Edges(index), root, x, h);
    ReachesTransitive(Edges(index), root, x, h');
  }

  function Heads(index: seq<Artifact>, all: seq<Artifact>): (r: seq<Id>)
    ensures forall x :: x in r <==> x in Shas(index) && forall a <- all :: x !in a.supersedes
  {
    if index == [] then []
    else
      var rest := Heads(index[1..], all);
      assert forall a :: a in index <==> a == index[0] || a in index[1..];
      if forall a <- all :: index[0].sha !in a.supersedes then [index[0].sha] + rest else rest
  }

  lemma {:induction false} HeadsDistinct(index: seq<Artifact>, all: seq<Artifact>)
    requires forall i, j :: 0 <= i < j < |index| ==> index[i].sha != index[j].sha
    ensures forall i, j :: 0 <= i < j < |Heads(index, all)| ==> Heads(index, all)[i] != Heads(index, all)[j]
  {
    if index != [] {
      HeadsDistinct(index[1..], all);
      assert index[0].sha !in Shas(index[1..]);
    }
  }

  /** What the views of an index without conflict are: one for each head, and every artifact in exactly one. */
  ghost predicate Partition(index: seq<Artifact>, views: seq<View>) {
    && (forall h :: IsHead(index, h) <==> exists i :: 0 <= i < |views| && views[i].document == h)
    && (forall i, j :: 0 <= i < j < |views| ==> views[i].document != views[j].document)
    && (forall i, x :: 0 <= i < |views| ==>
          (x in views[i].lineage <==> x in Shas(index) && Reaches(Edges(index), {x}, views[i].document)))
    && (forall x <- Shas(index) :: exists i :: 0 <= i < |views| && x in views[i].lineage)
    && (forall x, i, j :: 0 <= i < j < |views| && x in views[i].lineage ==> x !in views[j].lineage)
  }

  /** Refuses exactly when some original leads to two heads; otherwise the lineages partition the artifacts. */
  method EffectiveViews(index: seq<Artifact>) returns (views: Option<seq<View>>)
    requires Accepted(index)
    ensures views.None? <==> Conflicted(index)
    ensures views.Some? ==> Partition(index, views.value)
    ensures views.Some? ==> |views.value| == |Heads(index, index)|
                            && forall i :: 0 <= i < |views.value| ==> views.value[i].document == Heads(index, index)[i]
  {
    hide Reaches, Edges, Accepted, Closure, Partition, Heads;
    var heads := Heads(index, index);
    HeadsAre(index);
    for i := 0 to |index|
      invariant forall k :: 0 <= k < i && index[k].supersedes == [] ==> !Splits(index, index[k].sha)
    {
      if index[i].supersedes == [] {
        var conflict := Crowded(index, heads, i);
        if conflict {
          return None;
        }
      }
    }
    if Conflicted(index) {
      ConflictSplits(index);
    }
    var list := Views(index, heads);
    views := Some(list);
  }

  ghost predicate Splits(index: seq<Artifact>, root: Id) {
    exists h, h' :: IsHead(index, h) && IsHead(index, h') && h != h'
      && Reaches(Edges(index), {root}, h) && Reaches(Edges(index), {root}, h')
  }

  lemma ConflictSplits(index: seq<Artifact>)
    requires Conflicted(index)
    ensures exists k :: 0 <= k < |index| && index[k].supersedes == [] && Splits(index, index[k].sha)
  {
  }

  lemma HeadsAre(index: seq<Artifact>)
    requires Accepted(index)
    ensures forall h :: h in Heads(index, index) <==> IsHead(index, h)
    ensures forall i, j :: 0 <= i < j < |Heads(index, index)| ==> Heads(index, index)[i] != Heads(index, index)[j]
  {
    forall i, j | 0 <= i < j < |index|
      ensures index[i].sha != index[j].sha
    {
      assert !Listed(index, j, index[j].sha);
    }
    HeadsDistinct(index, index);
  }

  /** Whether the original does not lead to exactly one head; it always leads to one. */
  method Crowded(index: seq<Artifact>, heads: seq<Id>, i: nat) returns (conflict: bool)
    requires Accepted(index) && i < |index| && index[i].supersedes == []
    requires forall h :: h in heads <==> IsHead(index, h)
    requires forall a, b :: 0 <= a < b < |heads| ==> heads[a] != heads[b]
    ensures conflict <==> Splits(index, index[i].sha)
  {
    hide Reaches, Edges, Accepted, Closure;
    var root := index[i].sha;
    var reach := Descendants(index, root);
    var current: seq<Id> := [];
    for k := 0 to |heads|
      invariant forall h :: h in current <==> h in heads[..k] && h in reach
      invariant forall a, b :: 0 <= a < b < |current| ==> current[a] != current[b]
    {
      if heads[k] in reach {
        assert heads[k] !in heads[..k];
        current := current + [heads[k]];
      }
    }
    assert heads[..|heads|] == heads;
    ghost var head := ToHead(index, i);
    assert head in current;
    conflict := |current| != 1;
    if conflict {
      assert current[0] != current[1] && current[0] in current && current[1] in current;
    }
  }

  method Views(index: seq<Artifact>, heads: seq<Id>) returns (views: seq<View>)
    requires Accepted(index) && !Conflicted(index)
    requires forall h :: h in heads <==> IsHead(index, h)
    requires forall a, b :: 0 <= a < b < |heads| ==> heads[a] != heads[b]
    ensures Partition(index, views) && |views| == |heads|
    ensures forall i :: 0 <= i < |views| ==> views[i].document == heads[i]
  {
    hide Reaches, Edges, Accepted, Closure, Partition;
    views := [];
    for k := 0 to |heads|
      invariant |views| == k
      invariant forall i :: 0 <= i < k ==> views[i].document == heads[i]
      invariant forall i, x :: 0 <= i < k ==>
        (x in views[i].lineage <==> x in Shas(index) && Reaches(Edges(index), {x}, heads[i]))
    {
      var lineage, _ := Ancestors(index, heads[k]);
      views := views + [View(heads[k], lineage)];
    }
    Partitioned(index, heads, views);
  }

  lemma Partitioned(index: seq<Artifact>, heads: seq<Id>, views: seq<View>)
    requires Accepted(index) && !Conflicted(index) && |views| == |heads|
    requires forall h :: h in heads <==> IsHead(index, h)
    requires forall a, b :: 0 <= a < b < |heads| ==> heads[a] != heads[b]
    requires forall i :: 0 <= i < |views| ==> views[i].document == heads[i]
    requires forall i, x :: 0 <= i < |views| ==>
      (x in views[i].lineage <==> x in Shas(index) && Reaches(Edges(index), {x}, heads[i]))
    ensures Partition(index, views)
  {
    hide Reaches, Edges, Accepted, Conflicted;
    forall x <- Shas(index)
      ensures exists i :: 0 <= i < |views| && x in views[i].lineage
    {
      var k :| 0 <= k < |index| && index[k].sha == x;
      var h := ToHead(index, k);
      var i :| 0 <= i < |heads| && heads[i] == h;
      assert x in views[i].lineage;
    }
    forall x, i, j | 0 <= i < j < |views| && x in views[i].lineage
      ensures x !in views[j].lineage
    {
      if x in views[j].lineage {
        OneHead(index, x, heads[i], heads[j]);
      }
    }
  }
}

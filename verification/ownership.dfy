/**
 Active reservations of checkouts, paths and scarce resources. Conflicts are
 decided on the spelling of declared paths; what they keep apart is files.
 */
module Ownership {
  import opened Wrappers

  /** A path without a trailing slash names one file; with one, a directory tree. */
  predicate IsFile(path: string) {
    path != "" && path[|path| - 1] != '/'
  }

  predicate IsTree(path: string) {
    path != "" && path[|path| - 1] == '/'
  }

  predicate Names(declared: string, path: string) {
    path == declared || (IsTree(declared) && declared <= path)
  }

  predicate Covers(declared: set<string>, path: string) {
    exists d <- declared :: Names(d, path)
  }

  predicate Overlap(left: set<string>, right: set<string>) {
    (exists p <- right :: Covers(left, p)) || (exists p <- left :: Covers(right, p))
  }

  /** Comparing the declarations decides whether any file is declared by both. */
  lemma OverlapIsSharing(left: set<string>, right: set<string>)
    requires "" !in left && "" !in right
    ensures Overlap(left, right) <==> exists f :: IsFile(f) && Covers(left, f) && Covers(right, f)
  {
    if p :| p in right && Covers(left, p) {
      CoveredShares(left, right, p);
    }
    if p :| p in left && Covers(right, p) {
      CoveredShares(right, left, p);
    }
    if f :| IsFile(f) && Covers(left, f) && Covers(right, f) {
      var d :| d in left && Names(d, f);
      var e :| e in right && Names(e, f);
      PrefixesNest(d, e, f);
      assert Names(d, e) || Names(e, d);
    }
  }

  lemma CoveredShares(left: set<string>, right: set<string>, p: string)
    requires "" !in right && p in right && Covers(left, p)
    ensures exists f :: IsFile(f) && Covers(left, f) && Covers(right, f)
  {
    var d :| d in left && Names(d, p);
    var f := if IsTree(p) then p + "x" else p;
    assert Names(p, f) && IsFile(f);
    assert Names(d, f) by {
      if IsTree(p) {
        assert p <= f;
      }
    }
  }

  lemma PrefixesNest(d: string, e: string, f: string)
    requires IsFile(f) && Names(d, f) && Names(e, f)
    ensures Names(d, e) || Names(e, d)
  {
  }

  // Reservations.

  datatype Reservation =
    | Writer(key: string, owner: string, reviewer: string, worktree: string, paths: set<string>, resources: set<string>)
    | Hold(key: string, owner: string, resources: set<string>)
    | Preserved(key: string, worktree: string, paths: set<string>)
  {
    /** Parsing refuses an empty path. */
    predicate Parsed() {
      Hold? || "" !in paths
    }

    function Worktrees(): set<string> {
      if Hold? then {} else {worktree}
    }

    function Writes(): set<string> {
      if Writer? then paths else {}
    }

    function Resources(): set<string> {
      if Preserved? then {} else resources
    }
  }

  datatype Reason =
    | Duplicate | WorktreeConflict | PathConflict | ResourceConflict
    | NotIndependent | ReviewerAuthors | AuthorReviews

  /** Two reservations share no key, no checkout, no resource and no file that either writes. */
  ghost predicate Apart(a: Reservation, b: Reservation) {
    && a.key != b.key && a.Worktrees() !! b.Worktrees() && a.Resources() !! b.Resources()
    && forall f :: IsFile(f) && Covers(a.Writes(), f) ==> !Covers(b.Writes(), f)
  }

  /** Nobody who reviews a writer is a writer's owner. */
  predicate Independent(a: Reservation, b: Reservation) {
    a.Writer? && b.Writer? ==> a.reviewer != b.owner && b.reviewer != a.owner
  }

  ghost predicate Disjoint(active: seq<Reservation>) {
    && (forall i, j :: 0 <= i < j < |active| ==> Apart(active[i], active[j]))
    && (forall i, j :: 0 <= i <= j < |active| ==> Independent(active[i], active[j]))
  }

  function Clash(other: Reservation, candidate: Reservation): set<Reason> {
    (if other.key == candidate.key then {Duplicate} else {})
    + (if other.Worktrees() * candidate.Worktrees() != {} then {WorktreeConflict} else {})
    + (if Overlap(other.Writes(), candidate.Writes()) then {PathConflict} else {})
    + (if other.Resources() * candidate.Resources() != {} then {ResourceConflict} else {})
  }

  /** What a reservation is in the way of another for: its key, its checkout, a file, or a resource. */
  ghost predicate Hinders(x: Reason, r: Reservation, c: Reservation) {
    match x
    case Duplicate => r.key == c.key
    case WorktreeConflict => !r.Hold? && !c.Hold? && r.worktree == c.worktree
    case PathConflict => r.Writer? && c.Writer? && exists f :: IsFile(f) && Covers(r.paths, f) && Covers(c.paths, f)
    case ResourceConflict => !r.Preserved? && !c.Preserved? && exists n <- r.resources :: n in c.resources
    case _ => false
  }

  /** What each reason means: some holder is in the way, or a person is on both sides of a review. */
  ghost predicate Holds(x: Reason, active: seq<Reservation>, c: Reservation) {
    match x
    case NotIndependent => c.Writer? && c.reviewer == c.owner
    case ReviewerAuthors => c.Writer? && exists r <- active :: r.Writer? && r.owner == c.reviewer
    case AuthorReviews => c.Writer? && exists r <- active :: r.Writer? && r.reviewer == c.owner
    case _ => exists r <- active :: Hinders(x, r, c)
  }

  /** The reasons against a candidate: none exactly when it keeps apart from, and independent of, every holder. */
  method Conflicts(active: seq<Reservation>, candidate: Reservation) returns (reasons: set<Reason>)
    requires candidate.Parsed() && forall r <- active :: r.Parsed()
    ensures reasons == {} <==>
              && Independent(candidate, candidate)
              && forall r <- active :: Apart(r, candidate) && Independent(r, candidate)
    ensures forall x :: x in reasons <==> Holds(x, active, candidate)
  {
    hide Apart, Holds;
    reasons := {};
    var authors, reviewers := {}, {};
    for i := 0 to |active|
      invariant reasons == Clashes(active[..i], candidate)
      invariant authors == Authors(active[..i]) && reviewers == Reviewers(active[..i])
    {
      assert active[..i + 1][..i] == active[..i];
      reasons := reasons + Clash(active[i], candidate);
      if active[i].Writer? {
        authors := authors + {active[i].owner};
        reviewers := reviewers + {active[i].reviewer};
      }
    }
    assert active[..|active|] == active;
    reasons := reasons + Partiality(candidate, authors, reviewers);
    ReasonsMean(active, candidate);
  }

  function Clashes(active: seq<Reservation>, c: Reservation): set<Reason> {
    if active == [] then {} else Clashes(active[..|active| - 1], c) + Clash(active[|active| - 1], c)
  }

  function Authors(active: seq<Reservation>): set<string> {
    if active == [] then {}
    else
      var last := active[|active| - 1];
      Authors(active[..|active| - 1]) + if last.Writer? then {last.owner} else {}
  }

  function Reviewers(active: seq<Reservation>): set<string> {
    if active == [] then {}
    else
      var last := active[|active| - 1];
      Reviewers(active[..|active| - 1]) + if last.Writer? then {last.reviewer} else {}
  }

  function Partiality(c: Reservation, authors: set<string>, reviewers: set<string>): set<Reason> {
    if !c.Writer? then {}
    else
      (if c.reviewer == c.owner then {NotIndependent} else {})
      + (if c.reviewer in authors then {ReviewerAuthors} else {})
      + (if c.owner in reviewers then {AuthorReviews} else {})
  }

  lemma {:induction false} ClashesAre(active: seq<Reservation>, c: Reservation, x: Reason)
    ensures x in Clashes(active, c) <==> exists r <- active :: x in Clash(r, c)
  {
    hide Clash;
    if active != [] {
      ClashesAre(active[..|active| - 1], c, x);
      assert forall r :: r in active <==> r in active[..|active| - 1] || r == active[|active| - 1];
    }
  }

  lemma {:induction false} WritersAre(active: seq<Reservation>, x: string)
    ensures x in Authors(active) <==> exists r <- active :: r.Writer? && r.owner == x
    ensures x in Reviewers(active) <==> exists r <- active :: r.Writer? && r.reviewer == x
  {
    if active != [] {
      WritersAre(active[..|active| - 1], x);
      assert forall r :: r in active <==> r in active[..|active| - 1] || r == active[|active| - 1];
    }
  }

  lemma ReasonsMean(active: seq<Reservation>, c: Reservation)
    requires c.Parsed() && forall r <- active :: r.Parsed()
    ensures var reasons := Clashes(active, c) + Partiality(c, Authors(active), Reviewers(active));
            && (forall x :: x in reasons <==> Holds(x, active, c))
            && (reasons == {} <==> Independent(c, c) && forall r <- active :: Apart(r, c) && Independent(r, c))
  {
    hide Apart, Clashes, Authors, Reviewers, Clash, Hinders;
    var reasons := Clashes(active, c) + Partiality(c, Authors(active), Reviewers(active));
    forall x
      ensures x in reasons <==> Holds(x, active, c)
    {
      ClashesAre(active, c, x);
      if c.Writer? {
        WritersAre(active, c.reviewer);
        WritersAre(active, c.owner);
      }
      forall r <- active
        ensures x in Clash(r, c) <==> Hinders(x, r, c)
      {
        ClashHinders(x, r, c);
      }
      HindersKinds(x, c);
    }
    NoReason(active, c, reasons);
  }

  lemma HindersKinds(x: Reason, c: Reservation)
    ensures x in {NotIndependent, ReviewerAuthors, AuthorReviews} ==> forall r :: !Hinders(x, r, c)
  {
  }

  lemma ClashHinders(x: Reason, r: Reservation, c: Reservation)
    requires r.Parsed() && c.Parsed()
    ensures x in Clash(r, c) <==> Hinders(x, r, c)
  {
    OverlapIsSharing(r.Writes(), c.Writes());
    Meeting(r.Worktrees(), c.Worktrees());
    Meeting(r.Resources(), c.Resources());
    assert !r.Writer? || !c.Writer? ==> forall f :: !(Covers(r.Writes(), f) && Covers(c.Writes(), f));
    hide Covers, IsFile, Overlap;
  }

  lemma NoReason(active: seq<Reservation>, c: Reservation, reasons: set<Reason>)
    requires c.Parsed() && (forall r <- active :: r.Parsed()) && forall x :: x in reasons <==> Holds(x, active, c)
    ensures reasons == {} <==> Independent(c, c) && forall r <- active :: Apart(r, c) && Independent(r, c)
  {
    hide Apart, Clash, Hinders;
    forall r <- active
      ensures Apart(r, c) <==> Clash(r, c) == {}
    {
      ClashMeans(r, c);
    }
    if reasons == {} {
      assert forall x :: !Holds(x, active, c);
      assert !Holds(NotIndependent, active, c) && !Holds(ReviewerAuthors, active, c) && !Holds(AuthorReviews, active, c);
      forall r <- active
        ensures Clash(r, c) == {}
      {
        forall x
          ensures x !in Clash(r, c)
        {
          ClashHinders(x, r, c);
          HindersKinds(x, c);
          assert x in Clash(r, c) ==> Holds(x, active, c);
        }
      }
    } else {
      var x :| x in reasons;
      assert Holds(x, active, c);
      if r :| r in active && Hinders(x, r, c) {
        ClashHinders(x, r, c);
      }
    }
  }

  lemma ClashMeans(a: Reservation, b: Reservation)
    requires a.Parsed() && b.Parsed()
    ensures Clash(a, b) == {} <==> Apart(a, b)
  {
    hide Covers, Overlap;
    OverlapIsSharing(a.Writes(), b.Writes());
    Meeting(a.Worktrees(), b.Worktrees());
    Meeting(a.Resources(), b.Resources());
    assert a.key == b.key ==> Duplicate in Clash(a, b);
    assert a.Worktrees() * b.Worktrees() != {} ==> WorktreeConflict in Clash(a, b);
    assert Overlap(a.Writes(), b.Writes()) ==> PathConflict in Clash(a, b);
    assert a.Resources() * b.Resources() != {} ==> ResourceConflict in Clash(a, b);
  }

  lemma Meeting(a: set<string>, b: set<string>)
    ensures a * b == {} <==> a !! b
  {
    if a * b != {} {
      var x :| x in a * b;
      assert x in a && x in b;
    } else {
      forall x | x in a
        ensures x !in b
      {
        assert x !in a * b;
      }
    }
  }

  function Without(active: seq<Reservation>, key: string): (r: seq<Reservation>)
    ensures forall x :: x in r <==> x in active && x.key != key
    ensures |r| == |active| ==> r == active
    ensures |r| <= |active|
  {
    if active == [] then []
    else
      var last := active[|active| - 1];
      var rest := Without(active[..|active| - 1], key);
      assert forall x :: x in active <==> x == last || x in active[..|active| - 1];
      if last.key == key then rest else rest + [last]
  }

  lemma {:induction false} WithoutKeeps(active: seq<Reservation>, key: string)
    requires Disjoint(active)
    ensures Disjoint(Without(active, key))
  {
    hide Apart, Independent, Disjoint;
    if active == [] {
      assert Without(active, key) == active;
    } else {
      assert active == active[..|active| - 1] + [active[|active| - 1]];
      PrefixDisjoint(active, |active| - 1);
      var front := active[..|active| - 1];
      WithoutKeeps(front, key);
      JoinKeeps(front, active[|active| - 1], Without(front, key));
    }
  }

  lemma PrefixDisjoint(active: seq<Reservation>, n: nat)
    requires Disjoint(active) && n <= |active|
    ensures Disjoint(active[..n])
  {
  }

  /** A newcomer that some reservations admit is admitted by any of them. */
  lemma JoinKeeps(front: seq<Reservation>, last: Reservation, rest: seq<Reservation>)
    requires Disjoint(front + [last]) && Disjoint(rest) && forall r <- rest :: r in front
    ensures Disjoint(rest + [last])
  {
    hide Apart, Independent;
    var active := front + [last];
    assert active[|front|] == last;
    forall i | 0 <= i < |rest|
      ensures Apart(rest[i], last) && Independent(rest[i], last)
    {
      assert rest[i] in rest;
      var k :| 0 <= k < |front| && front[k] == rest[i];
      assert active[k] == rest[i];
    }
  }

  /** The journal's active reservations. */
  class Reservations {
    var active: seq<Reservation>

    ghost predicate Valid()
      reads this
    {
      Disjoint(active) && forall r <- active :: r.Parsed()
    }

    constructor ()
      ensures Valid() && active == []
    {
      active := [];
    }

    /** Admits a reservation exactly when the reservations stay disjoint with it. */
    method Reserve(candidate: Reservation) returns (ok: bool)
      requires Valid() && candidate.Parsed()
      modifies this
      ensures Valid()
      ensures ok <==> Disjoint(old(active) + [candidate])
      ensures active == if ok then old(active) + [candidate] else old(active)
    {
      var reasons := Conflicts(active, candidate);
      ok := reasons == {};
      JoinMeans(active, candidate);
      if ok {
        active := active + [candidate];
      }
    }

    /** Removes the named reservation and touches no other. */
    method Release(key: string) returns (ok: bool)
      requires Valid()
      modifies this
      ensures Valid() && active == Without(old(active), key)
      ensures ok <==> exists r <- old(active) :: r.key == key
    {
      WithoutKeeps(active, key);
      var kept := Without(active, key);
      ok := |kept| != |active|;
      RemovedSome(active, key);
      active := kept;
    }

    /** A completed ticket's reservation ends with it. */
    method Complete(ticket: string)
      requires Valid()
      modifies this
      ensures Valid() && active == Without(old(active), ticket) && forall r <- active :: r.key != ticket
    {
      WithoutKeeps(active, ticket);
      active := Without(active, ticket);
    }

    method AnyRun(steps: nat)
      requires Valid()
      modifies this
      ensures Valid()
    {
      for i := 0 to steps
        invariant Valid()
      {
        var key: string := Oracle();
        if * {
          var candidate: Reservation := Oracle();
          if candidate.Parsed() {
            var _ := Reserve(candidate);
          }
        } else if * {
          var _ := Release(key);
        } else {
          Complete(key);
        }
      }
    }
  }

  lemma JoinMeans(active: seq<Reservation>, c: Reservation)
    requires Disjoint(active)
    ensures Disjoint(active + [c]) <==>
              Independent(c, c) && forall r <- active :: Apart(r, c) && Independent(r, c)
  {
    hide Apart, Independent;
    var joined := active + [c];
    if Disjoint(joined) {
      assert joined[|active|] == c;
      forall r <- active
        ensures Apart(r, c) && Independent(r, c)
      {
        var i :| 0 <= i < |active| && active[i] == r;
        assert joined[i] == r;
      }
    }
  }

  lemma {:induction false} RemovedSome(active: seq<Reservation>, key: string)
    ensures |Without(active, key)| == |active| <==> forall r <- active :: r.key != key
  {
    if active != [] {
      RemovedSome(active[..|active| - 1], key);
    }
  }

  /** What disjointness says of files and people. */
  lemma DisjointMeans(active: seq<Reservation>, a: Reservation, b: Reservation, f: string)
    requires Disjoint(active) && a in active && b in active && a.Writer? && b.Writer?
    ensures a.reviewer != b.owner
    ensures IsFile(f) && Covers(a.paths, f) && Covers(b.paths, f) ==> a == b
  {
  }
}

/**
 Stage time of a unit of work: the length of the union of its intervals, by one
 sweep over them in order of their starts. Times are whole ticks.
 */
module Intervals {
  import opened Wrappers

  datatype Interval = Interval(start: nat, length: nat) {
    function End(): nat {
      start + length
    }
  }

  /** The ticks from `low` up to, not with, `high`. */
  function Range(low: nat, high: nat): (r: set<nat>)
    requires low <= high
    ensures |r| == high - low && forall t :: t in r <==> low <= t < high
    decreases high - low
  {
    if low == high then {} else Range(low, high - 1) + {high - 1}
  }

  function Ticks(i: Interval): set<nat> {
    Range(i.start, i.End())
  }

  function Union(intervals: seq<Interval>): set<nat> {
    if intervals == [] then {} else Union(intervals[..|intervals| - 1]) + Ticks(intervals[|intervals| - 1])
  }

  lemma {:induction false} UnionIs(intervals: seq<Interval>, t: nat)
    ensures t in Union(intervals) <==> exists i <- intervals :: i.start <= t < i.End()
  {
    if intervals != [] {
      UnionIs(intervals[..|intervals| - 1], t);
      assert forall i :: i in intervals <==> i in intervals[..|intervals| - 1] || i == intervals[|intervals| - 1];
    }
  }

  predicate Ordered(intervals: seq<Interval>) {
    forall i, j :: 0 <= i < j < |intervals| ==> intervals[i].start <= intervals[j].start
  }

  /** The intervals in order of their starts. */
  function Sorted(intervals: seq<Interval>): (r: seq<Interval>)
    ensures Ordered(r) && multiset(r) == multiset(intervals)
  {
    if intervals == [] then []
    else
      assert intervals == intervals[..|intervals| - 1] + [intervals[|intervals| - 1]];
      Insert(Sorted(intervals[..|intervals| - 1]), intervals[|intervals| - 1])
  }

  function Insert(s: seq<Interval>, x: Interval): (r: seq<Interval>)
    requires Ordered(s)
    ensures Ordered(r) && multiset(r) == multiset(s) + multiset{x}
  {
    if s == [] || s[|s| - 1].start <= x.start then s + [x]
    else
      assert s == s[..|s| - 1] + [s[|s| - 1]];
      var rest := Insert(s[..|s| - 1], x);
      InsertedBelow(s, x, rest);
      rest + [s[|s| - 1]]
  }

  lemma InsertedBelow(s: seq<Interval>, x: Interval, rest: seq<Interval>)
    requires Ordered(s) && s != [] && x.start <= s[|s| - 1].start
    requires multiset(rest) == multiset(s[..|s| - 1]) + multiset{x}
    ensures forall i :: 0 <= i < |rest| ==> rest[i].start <= s[|s| - 1].start
  {
    forall i | 0 <= i < |rest|
      ensures rest[i].start <= s[|s| - 1].start
    {
      assert rest[i] in multiset(rest);
      assert rest[i] in multiset(s[..|s| - 1]) || rest[i] == x;
    }
  }

  /** How far a sweep has reached: at least every end, and beyond nothing but them. */
  predicate Reached(intervals: seq<Interval>, reached: nat) {
    && (forall i <- intervals :: i.End() <= reached)
    && (reached == 0 || exists i <- intervals :: i.End() == reached)
  }

  function Later(a: nat, b: nat): nat {
    if a > b then a else b
  }

  lemma TicksBelow(done: seq<Interval>, reached: nat, from: nat)
    requires Reached(done, reached) && forall i <- done :: i.start <= from
    ensures forall t <- Union(done) :: t < reached
    ensures forall t :: from <= t < reached ==> t in Union(done)
  {
    forall t <- Union(done)
      ensures t < reached
    {
      UnionIs(done, t);
    }
    forall t | from <= t < reached
      ensures t in Union(done)
    {
      var i :| i in done && i.End() == reached;
      UnionIs(done, t);
    }
  }

  /** One more interval, starting no earlier than the others: the sweep adds exactly its new ticks. */
  lemma SweepStep(done: seq<Interval>, next: Interval, reached: nat)
    requires Reached(done, reached) && forall i <- done :: i.start <= next.start
    ensures |Union(done + [next])| ==
              |Union(done)| + (if next.End() > reached then next.End() - Later(next.start, reached) else 0)
  {
    hide Reached;
    assert (done + [next])[..|done|] == done;
    TicksBelow(done, reached, next.start);
    if next.End() > reached {
      var added := Range(Later(next.start, reached), next.End());
      assert Union(done + [next]) == Union(done) + Range(next.start, next.End());
      assert Union(done + [next]) == Union(done) + added by {
        hide Union;
      }
      assert Union(done) !! added;
    } else {
      assert Union(done + [next]) == Union(done);
    }
  }

  lemma ReachedStep(done: seq<Interval>, next: Interval, reached: nat)
    requires Reached(done, reached)
    ensures Reached(done + [next], Later(next.End(), reached))
  {
  }

  /** The sweep's total is the size of the union, in whatever order the intervals came. */
  method Covered(intervals: seq<Interval>) returns (total: nat)
    ensures total == |Union(intervals)|
  {
    hide Union, Reached, Sorted;
    var sorted := Sorted(intervals);
    var reached: nat := 0;
    total := 0;
    Nothing();
    assert sorted[..0] == [];
    for i := 0 to |sorted|
      invariant total == |Union(sorted[..i])| && Reached(sorted[..i], reached)
    {
      var next := sorted[i];
      assert sorted[..i + 1] == sorted[..i] + [next];
      assert forall x <- sorted[..i] :: x.start <= next.start;
      SweepStep(sorted[..i], next, reached);
      ReachedStep(sorted[..i], next, reached);
      if next.End() > reached {
        total := total + (next.End() - Later(next.start, reached));
        reached := next.End();
      }
    }
    assert sorted[..|sorted|] == sorted;
    SameUnion(sorted, intervals);
  }

  lemma Nothing()
    ensures Union([]) == {} && Reached([], 0)
  {
  }

  lemma SameUnion(a: seq<Interval>, b: seq<Interval>)
    requires multiset(a) == multiset(b)
    ensures Union(a) == Union(b)
  {
    forall t: nat
      ensures t in Union(a) <==> t in Union(b)
    {
      UnionIs(a, t);
      UnionIs(b, t);
      assert forall i :: i in a <==> i in multiset(a);
      assert forall i :: i in b <==> i in multiset(b);
    }
  }

  // Events, some of whose times are not known.

  datatype Timing = Known(interval: Interval) | Unknown(reason: string)

  datatype Event = Event(stage: nat, activity: nat, timing: Timing)

  datatype Span = Measured(ticks: nat) | Unmeasured(reasons: set<string>)

  function Reasons(events: seq<Event>): set<string> {
    set e | e in events && e.timing.Unknown? :: e.timing.reason
  }

  predicate Timed(events: seq<Event>) {
    forall i :: 0 <= i < |events| ==> events[i].timing.Known?
  }

  function Times(events: seq<Event>): (r: seq<Interval>)
    requires Timed(events)
    ensures |r| == |events| && forall i :: 0 <= i < |r| ==> r[i] == events[i].timing.interval
  {
    seq(|events|, i requires 0 <= i < |events| => events[i].timing.interval)
  }

  lemma TimesAre(events: seq<Event>, x: Interval)
    requires Timed(events)
    ensures x in Times(events) <==> exists e <- events :: e.timing == Known(x)
  {
  }

  /** The length of the union of all intervals, or every reason why it is not known. */
  function Coverage(events: seq<Event>): Span {
    if !Timed(events) then Unmeasured(Reasons(events)) else Measured(|Union(Times(events))|)
  }

  method CoveredBy(events: seq<Event>) returns (span: Span)
    ensures span == Coverage(events)
    ensures span.Unmeasured? <==> exists e <- events :: e.timing.Unknown?
    ensures span.Unmeasured? ==> forall x :: x in span.reasons <==> exists e <- events :: e.timing == Unknown(x)
  {
    if !Timed(events) {
      return Unmeasured(Reasons(events));
    }
    var total := Covered(Times(events));
    span := Measured(total);
  }

  /** From the first start to the last end. */
  method Elapsed(events: seq<Event>) returns (span: Span)
    requires events != []
    ensures span.Unmeasured? <==> Coverage(events).Unmeasured?
    ensures span.Unmeasured? ==> span == Coverage(events)
    ensures span.Measured? ==> Coverage(events).ticks <= span.ticks
    ensures span.Measured? ==>
              exists a <- Times(events), b <- Times(events) :: span.ticks == b.End() - a.start
                && forall x <- Times(events) :: a.start <= x.start && x.End() <= b.End()
  {
    if !Timed(events) {
      return Unmeasured(Reasons(events));
    }
    var times := Times(events);
    var first, last := times[0], times[0];
    for i := 1 to |times|
      invariant first in times && last in times
      invariant forall x <- times[..i] :: first.start <= x.start && x.End() <= last.End()
    {
      first := if times[i].start < first.start then times[i] else first;
      last := if times[i].End() > last.End() then times[i] else last;
    }
    assert times[..|times|] == times;
    assert first.start <= last.start;
    span := Measured(last.End() - first.start);
    assert Union(times) <= Range(first.start, last.End()) by {
      forall t <- Union(times)
        ensures t in Range(first.start, last.End())
      {
        UnionIs(times, t);
      }
    }
    Fewer(Union(times), Range(first.start, last.End()));
  }

  /** What remains, or why that is not known: the whole's reasons come first. */
  datatype Rest = Remaining(ticks: int) | Unremaining(reasons: set<string>)

  function Difference(total: Span, part: Span): (r: Rest)
    ensures r.Remaining? <==> total.Measured? && part.Measured?
    ensures r.Remaining? ==> part.ticks + r.ticks == total.ticks
    ensures total.Unmeasured? ==> r == Unremaining(total.reasons)
    ensures total.Measured? && part.Unmeasured? ==> r == Unremaining(part.reasons)
  {
    if total.Unmeasured? then Unremaining(total.reasons)
    else if part.Unmeasured? then Unremaining(part.reasons)
    else Remaining(total.ticks - part.ticks)
  }

  function Group(events: seq<Event>, key: Event -> nat, k: nat): (r: seq<Event>)
    ensures forall e :: e in r <==> e in events && key(e) == k
  {
    if events == [] then []
    else
      var last := events[|events| - 1];
      assert forall e :: e in events <==> e in events[..|events| - 1] || e == last;
      var rest := Group(events[..|events| - 1], key, k);
      if key(last) == k then rest + [last] else rest
  }

  /** No stage or activity covers more than its unit does, and an unknown part makes its unit unknown. */
  lemma GroupWithin(events: seq<Event>, key: Event -> nat, k: nat)
    ensures var part, whole := Coverage(Group(events, key, k)), Coverage(events);
            && (part.Unmeasured? ==> whole.Unmeasured? && part.reasons <= whole.reasons)
            && (whole.Measured? ==> part.Measured? && part.ticks <= whole.ticks)
  {
    var group := Group(events, key, k);
    assert Reasons(group) <= Reasons(events);
    if Timed(events) {
      assert forall e <- events :: e.timing.Known?;
      assert Timed(group);
      GroupUnion(events, group);
      Fewer(Union(Times(group)), Union(Times(events)));
    }
  }

  lemma GroupUnion(events: seq<Event>, group: seq<Event>)
    requires Timed(events) && Timed(group) && forall e <- group :: e in events
    ensures Union(Times(group)) <= Union(Times(events))
  {
    hide Union;
    forall t <- Union(Times(group))
      ensures t in Union(Times(events))
    {
      UnionIs(Times(group), t);
      var x :| x in Times(group) && x.start <= t < x.End();
      TimesAre(group, x);
      TimesAre(events, x);
      UnionIs(Times(events), t);
    }
  }

  /** A unit's report: nothing recorded is lost, no time is negative, and what is not known says why. */
  method Report(events: seq<Event>) returns (elapsed: Span, unrecorded: Rest)
    requires events != []
    ensures elapsed.Measured? <==> Coverage(events).Measured?
    ensures unrecorded.Remaining? <==> elapsed.Measured?
    ensures unrecorded.Remaining? ==> unrecorded.ticks >= 0 && Coverage(events).ticks + unrecorded.ticks == elapsed.ticks
    ensures unrecorded.Unremaining? ==> forall x :: x in unrecorded.reasons <==> exists e <- events :: e.timing == Unknown(x)
  {
    elapsed := Elapsed(events);
    var covered := CoveredBy(events);
    unrecorded := Difference(elapsed, covered);
  }
}

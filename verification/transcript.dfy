/**
 Incremental scanning of a growing session transcript, and the events logged from
 it. A poll reads only unread lines, appends the events that the log lacks, and then
 replaces its checkpoint; it may stop anywhere, and a checkpoint may be lost.
 */
module Transcript {
  import opened Wrappers
  import opened FindingScan

  // Records, after parsing, and the summary they are fed into.

  datatype Client = Codex | Claude

  datatype Status = Unsettled | Active | Complete

  datatype Stop = EndTurn | ToolUse | OtherStop

  /** What a record says beside the session it names. */
  datatype Content =
    | Started(turn: Option<nat>)
    | Completed(turn: Option<nat>, time: nat)
    | Aborted
    | Usage(consumed: Option<nat>)
    | Compacted(time: nat)
    | ContextCompacted(time: nat)
    | User
    | Assistant(response: Option<nat>, stop: Stop, measured: Option<nat>, at: nat)
    | Boundary(time: nat)
    | Interrupted
    | Ignored

  datatype Record = Record(session: Option<nat>, content: Content)

  datatype Summary = Summary(
    client: Client, session: Option<nat>, conflict: bool, status: Status, turn: Option<nat>, consumed: Option<nat>,
    completions: seq<nat>, compactions: seq<nat>, justCompacted: bool,
    seen: set<nat>, finished: set<nat>, last: Option<nat>, unidentified: bool,
    startup: Option<Option<nat>>, partial: bool)

  function Fresh(client: Client): Summary {
    Summary(client, None, false, Unsettled, None, None, [], [], false, {}, {}, None, false, None, false)
  }

  /** A session keeps the first identity it names; any other is a conflict for good. */
  function Identify(s: Summary, session: Option<nat>): Summary {
    if session.None? then s
    else if s.session.None? then s.(session := session)
    else if s.session != session then s.(conflict := true)
    else s
  }

  function FeedCodex(s: Summary, c: Content): Summary {
    match c
    case Started(turn) => s.(status := Active, turn := turn)
    case Completed(turn, time) =>
      if s.turn.None? || s.turn == turn then
        s.(status := Complete, turn := None, completions := s.completions + [time])
      else s
    case Aborted => s.(status := Unsettled, turn := None)
    case Usage(consumed) => s.(consumed := consumed)
    case Compacted(time) => s.(compactions := s.compactions + [time], justCompacted := true)
    case ContextCompacted(time) =>
      s.(compactions := if s.justCompacted then s.compactions else s.compactions + [time], justCompacted := false)
    case _ => s
  }

  /** A whole stream. */
  function Fed(contents: seq<Content>): Summary {
    if contents == [] then Fresh(Codex) else FeedCodex(Fed(contents[..|contents| - 1]), contents[|contents| - 1])
  }

  /** The turn `t` was started and neither ended nor replaced by another start. */
  ghost predicate Open(contents: seq<Content>, t: nat) {
    exists j :: 0 <= j < |contents| && contents[j] == Started(Some(t))
                && forall k :: j < k < |contents| ==> !Ends(contents[k], t)
  }

  predicate Ends(c: Content, t: nat) {
    c.Started? || c.Aborted? || (c.Completed? && c.turn == Some(t))
  }

  /** A completion counts unless a turn is open that it does not name. */
  ghost predicate Closing(before: seq<Content>, c: Content) {
    c.Completed? && forall t: nat :: Open(before, t) ==> c.turn == Some(t)
  }

  ghost function ClosingTimes(contents: seq<Content>): seq<nat> {
    if contents == [] then []
    else
      var (init, last) := (contents[..|contents| - 1], contents[|contents| - 1]);
      ClosingTimes(init) + if Closing(init, last) then [last.time] else []
  }

  /** A compaction was reported, and its second report is still to come. */
  ghost predicate Halfway(contents: seq<Content>) {
    exists j :: 0 <= j < |contents| && contents[j].Compacted?
                && forall k :: j < k < |contents| ==> !contents[k].ContextCompacted?
  }

  ghost function CompactionTimes(contents: seq<Content>): seq<nat> {
    if contents == [] then []
    else
      var (init, last) := (contents[..|contents| - 1], contents[|contents| - 1]);
      CompactionTimes(init) + if last.Compacted? || (last.ContextCompacted? && !Halfway(init)) then [last.time] else []
  }

  /** Over a whole stream: the turn is the one that is open, and every turn's end is counted once. */
  lemma {:induction false} CodexTurns(contents: seq<Content>)
    ensures forall t: nat :: Fed(contents).turn == Some(t) <==> Open(contents, t)
    ensures Fed(contents).completions == ClosingTimes(contents)
  {
    if contents != [] {
      var (init, last) := (contents[..|contents| - 1], contents[|contents| - 1]);
      assert contents == init + [last];
      CodexTurns(init);
      forall t: nat
        ensures Open(contents, t) <==> last == Started(Some(t)) || (Open(init, t) && !Ends(last, t))
      {
        OpenMore(init, last, t);
      }
      hide Open;
      CodexTurn(Fed(init), last);
      if Fed(init).turn.Some? {
        assert Open(init, Fed(init).turn.value);
      }
    }
  }

  /** What one content does to the open turn and the count. */
  lemma CodexTurn(s: Summary, c: Content)
    ensures var f := FeedCodex(s, c);
            && (forall t: nat :: f.turn == Some(t) <==> c == Started(Some(t)) || (s.turn == Some(t) && !Ends(c, t)))
            && f.completions == s.completions
                 + (if c.Completed? && (s.turn.Some? ==> c.turn == s.turn) then [c.time] else [])
  {
  }

  /** Over a whole stream: a compaction that is reported twice is counted once. */
  lemma {:induction false} CodexCompactions(contents: seq<Content>)
    ensures Fed(contents).justCompacted <==> Halfway(contents)
    ensures Fed(contents).compactions == CompactionTimes(contents)
  {
    if contents != [] {
      var (init, last) := (contents[..|contents| - 1], contents[|contents| - 1]);
      assert contents == init + [last];
      CodexCompactions(init);
      HalfwayMore(init, last);
      hide Halfway;
    }
  }

  lemma OpenMore(init: seq<Content>, last: Content, t: nat)
    ensures Open(init + [last], t) <==> last == Started(Some(t)) || (Open(init, t) && !Ends(last, t))
  {
    var all := init + [last];
    if Open(init, t) && !Ends(last, t) {
      var j :| 0 <= j < |init| && init[j] == Started(Some(t)) && forall k :: j < k < |init| ==> !Ends(init[k], t);
      assert all[j] == init[j] && forall k :: j < k < |init| ==> all[k] == init[k];
    }
    if last == Started(Some(t)) {
      assert all[|init|] == last;
    }
    if Open(all, t) {
      var j :| 0 <= j < |all| && all[j] == Started(Some(t)) && forall k :: j < k < |all| ==> !Ends(all[k], t);
      if j < |init| {
        assert init[j] == all[j] && forall k :: j < k < |init| ==> init[k] == all[k];
        assert all[|init|] == last;
      }
    }
  }

  lemma HalfwayMore(init: seq<Content>, last: Content)
    ensures Halfway(init + [last]) <==> last.Compacted? || (Halfway(init) && !last.ContextCompacted?)
  {
    var all := init + [last];
    if Halfway(init) && !last.ContextCompacted? {
      var j :| 0 <= j < |init| && init[j].Compacted? && forall k :: j < k < |init| ==> !init[k].ContextCompacted?;
      assert all[j] == init[j] && forall k :: j < k < |init| ==> all[k] == init[k];
    }
    if last.Compacted? {
      assert all[|init|] == last;
    }
    if Halfway(all) {
      var j :| 0 <= j < |all| && all[j].Compacted? && forall k :: j < k < |all| ==> !all[k].ContextCompacted?;
      if j < |init| {
        assert init[j] == all[j] && forall k :: j < k < |init| ==> init[k] == all[k];
        assert all[|init|] == last;
      }
    }
  }

  function FeedClaude(s: Summary, c: Content): Summary {
    match c
    case User => s.(status := Active)
    case Assistant(response, stop, measured, time) =>
      if response.None? then s.(unidentified := true)
      else
        var id := response.value;
        if id in s.seen && s.last != response then s
        else
          var next := s.(seen := s.seen + {id}, last := response, consumed := measured,
                         status := match stop case EndTurn => Complete case ToolUse => Active case OtherStop => Unsettled);
          if stop == EndTurn && id !in s.finished then
            next.(finished := s.finished + {id}, completions := s.completions + [time])
          else next
    case Boundary(time) => s.(compactions := s.compactions + [time], consumed := None, last := None)
    case Interrupted => s.(status := Unsettled)
    case _ => s
  }

  /** One record; the first completed turn fixes what startup cost. */
  function Feed(s: Summary, r: Record): Summary {
    var named := Identify(s, r.session);
    var fed := if s.client == Codex then FeedCodex(named, r.content) else FeedClaude(named, r.content);
    if |s.completions| == 0 && |fed.completions| == 1 then fed.(startup := Some(fed.consumed)) else fed
  }

  /** Nothing counted is ever uncounted, a conflict stays, and so does a known identity. */
  predicate Grew(s: Summary, f: Summary) {
    && s.completions <= f.completions && |f.completions| <= |s.completions| + 1 && s.compactions <= f.compactions
    && f.partial == s.partial && f.client == s.client
    && (s.conflict ==> f.conflict) && (s.session.Some? ==> f.session == s.session)
  }

  lemma CodexGrows(s: Summary, c: Content)
    ensures Grew(s, FeedCodex(s, c)) && FeedCodex(s, c).startup == s.startup
  {
  }

  lemma ClaudeGrows(s: Summary, c: Content)
    ensures Grew(s, FeedClaude(s, c)) && FeedClaude(s, c).startup == s.startup
  {
  }

  lemma Identifies(s: Summary, session: Option<nat>)
    ensures var f := Identify(s, session);
            f == s.(session := f.session, conflict := f.conflict) && Grew(s, f)
  {
  }

  /** And once a turn was completed, what startup cost is never rewritten. */
  lemma FeedGrows(s: Summary, r: Record)
    ensures Grew(s, Feed(s, r))
    ensures |s.completions| > 0 ==> Feed(s, r).startup == s.startup
  {
    hide FeedCodex, FeedClaude, Identify;
    Identifies(s, r.session);
    CodexGrows(Identify(s, r.session), r.content);
    ClaudeGrows(Identify(s, r.session), r.content);
  }

  /** A response is completed at most once, however often it is reported. */
  predicate Tallied(s: Summary) {
    s.client == Claude ==> |s.completions| == |s.finished| && s.finished <= s.seen
  }

  lemma FeedTallies(s: Summary, r: Record)
    requires Tallied(s)
    ensures Tallied(Feed(s, r))
  {
    hide FeedCodex, FeedClaude;
    CodexGrows(Identify(s, r.session), r.content);
    ClaudeGrows(Identify(s, r.session), r.content);
    ClaudeTallies(Identify(s, r.session), r.content);
  }

  lemma ClaudeTallies(s: Summary, c: Content)
    requires Tallied(s)
    ensures Tallied(FeedClaude(s, c))
  {
  }

  /** A response that is reported while it grows counts once, when it first says that the turn is over, and costs what
      its last report says; a report that comes after another response is a repetition, and changes nothing. */
  lemma ReportsCount(s: Summary, id: nat, a: Content, b: Content)
    requires a.Assistant? && a.response == Some(id) && b.Assistant? && b.response == Some(id)
    requires Tallied(s) && s.client == Claude
    ensures id !in s.seen ==>
              var f := FeedClaude(FeedClaude(s, a), b);
              && f.consumed == b.measured && f.last == Some(id) && f.seen == s.seen + {id}
              && f.completions == s.completions
                   + (if a.stop.EndTurn? then [a.at] else if b.stop.EndTurn? then [b.at] else [])
              && (f.status.Complete? <==> b.stop.EndTurn?) && (f.status.Active? <==> b.stop.ToolUse?)
    ensures id in s.seen && s.last != Some(id) ==> FeedClaude(s, a) == s
  {
  }

  // Scanning.

  type Parser = string -> Option<Record>

  datatype Scanned = Read(summary: Summary, offset: nat) | Invalid

  /** Every complete line from `offset` on; an incomplete last line only while a turn is active. */
  function Scan(parse: Parser, s: string, offset: nat, summary: Summary): Scanned
    requires offset <= |s|
    decreases |s| - offset
  {
    if offset == |s| then Read(summary, offset)
    else
      var e := LineEnd(s, offset);
      if e == |s| then if summary.status != Active then Invalid else Read(summary.(partial := true), offset)
      else
        var r := parse(s[offset..e]);
        if r.None? then Invalid else Scan(parse, s, e + 1, Feed(summary, r.value))
  }

  /** The loop over the open file. */
  method ScanFrom(parse: Parser, s: string, offset: nat, prior: Summary) returns (r: Scanned)
    requires offset <= |s|
    ensures r == Scan(parse, s, offset, prior.(partial := false))
  {
    hide Feed;
    var at, summary := offset, prior.(partial := false);
    while at < |s|
      invariant offset <= at <= |s|
      invariant Scan(parse, s, at, summary) == Scan(parse, s, offset, prior.(partial := false))
    {
      var e := LineEnd(s, at);
      if e == |s| {
        return if summary.status != Active then Invalid else Read(summary.(partial := true), at);
      }
      var record := parse(s[at..e]);
      if record.None? {
        return Invalid;
      }
      at, summary := e + 1, Feed(summary, record.value);
    }
    r := Read(summary, at);
  }

  lemma LineEndGrows(s: string, s': string, at: nat)
    requires at <= |s| && s <= s' && LineEnd(s, at) < |s|
    ensures LineEnd(s', at) == LineEnd(s, at) && s'[at..LineEnd(s, at)] == s[at..LineEnd(s, at)]
  {
  }

  /** Going on from where a scan stopped is the same as having scanned it all at once. */
  lemma {:induction false} ScanResumes(parse: Parser, s: string, s': string, at: nat, summary: Summary)
    requires at <= |s| && s <= s' && !summary.partial && Scan(parse, s, at, summary).Read?
    ensures var r := Scan(parse, s, at, summary);
            && at <= r.offset <= |s|
            && Scan(parse, s', at, summary) == Scan(parse, s', r.offset, r.summary.(partial := false))
    decreases |s| - at
  {
    hide Feed, Scan, LineEnd;
    ScanUnfolds(parse, s, at, summary);
    if at < |s| && LineEnd(s, at) < |s| {
      var e := LineEnd(s, at);
      LineEndGrows(s, s', at);
      ScanUnfolds(parse, s', at, summary);
      var record := parse(s[at..e]).value;
      FeedGrows(summary, record);
      ScanResumes(parse, s, s', e + 1, Feed(summary, record));
    }
  }

  /** A scan stops after the last complete line. */
  lemma {:induction false} ScanEnds(parse: Parser, s: string, at: nat, summary: Summary)
    requires at <= |s| && Scan(parse, s, at, summary).Read?
    ensures var r := Scan(parse, s, at, summary);
            at <= r.offset <= |s| && '\n' !in s[r.offset..] && (r.offset == at || s[r.offset - 1] == '\n')
    decreases |s| - at
  {
    hide Feed;
    if at < |s| && LineEnd(s, at) < |s| {
      var e := LineEnd(s, at);
      ScanEnds(parse, s, e + 1, Feed(summary, parse(s[at..e]).value));
    }
  }

  /** What was consumed ends with its last complete line, and by itself scans to the same summary. */
  lemma {:induction false} ScanConsumes(parse: Parser, s: string, at: nat, summary: Summary)
    requires at <= |s| && !summary.partial && Scan(parse, s, at, summary).Read?
    ensures var r := Scan(parse, s, at, summary);
            && at <= r.offset <= |s| && '\n' !in s[r.offset..] && (r.offset == at || s[r.offset - 1] == '\n')
            && Scan(parse, s[..r.offset], at, summary) == Read(r.summary.(partial := false), r.offset)
    decreases |s| - at
  {
    hide Feed, Scan, LineEnd;
    ScanUnfolds(parse, s, at, summary);
    if at < |s| && LineEnd(s, at) < |s| {
      var e := LineEnd(s, at);
      var record := parse(s[at..e]).value;
      FeedGrows(summary, record);
      ScanConsumes(parse, s, e + 1, Feed(summary, record));
      var part := s[..Scan(parse, s, at, summary).offset];
      assert part[at..e] == s[at..e];
      LineEndIs(part, at, e);
      ScanUnfolds(parse, part, at, summary);
    } else {
      ScanUnfolds(parse, s[..at], at, summary);
    }
  }

  lemma ScanUnfolds(parse: Parser, s: string, at: nat, summary: Summary)
    requires at <= |s|
    ensures Scan(parse, s, at, summary) ==
              if at == |s| then Read(summary, at)
              else
                var e := LineEnd(s, at);
                if e == |s| then if summary.status != Active then Invalid else Read(summary.(partial := true), at)
                else if parse(s[at..e]).None? then Invalid
                else Scan(parse, s, e + 1, Feed(summary, parse(s[at..e]).value))
    ensures at < |s| ==> '\n' !in s[at..LineEnd(s, at)] && (LineEnd(s, at) < |s| ==> s[LineEnd(s, at)] == '\n')
  {
  }

  /** And counts no less than before. */
  lemma {:induction false} ScanCounts(parse: Parser, s: string, at: nat, summary: Summary)
    requires at <= |s| && Scan(parse, s, at, summary).Read?
    ensures var r := Scan(parse, s, at, summary);
            summary.completions <= r.summary.completions && summary.compactions <= r.summary.compactions
    decreases |s| - at
  {
    hide Feed;
    if at < |s| && LineEnd(s, at) < |s| {
      var record := parse(s[at..LineEnd(s, at)]).value;
      FeedGrows(summary, record);
      ScanCounts(parse, s, LineEnd(s, at) + 1, Feed(summary, record));
    }
  }

  /** So a whole transcript counts each completed response once. */
  lemma {:induction false} ScanTallies(parse: Parser, s: string, at: nat, summary: Summary)
    requires at <= |s| && Tallied(summary) && Scan(parse, s, at, summary).Read?
    ensures Tallied(Scan(parse, s, at, summary).summary)
    decreases |s| - at
  {
    hide Feed;
    if at < |s| && LineEnd(s, at) < |s| {
      var record := parse(s[at..LineEnd(s, at)]).value;
      FeedTallies(summary, record);
      ScanTallies(parse, s, LineEnd(s, at) + 1, Feed(summary, record));
    }
  }

  // Watching.

  datatype Topic = Completion | Compaction | Admission

  datatype Event = Event(topic: Topic, ordinal: nat)

  datatype Checkpoint = Checkpoint(offset: nat, summary: Summary, completions: nat, compactions: nat)

  function Counted(s: Summary, topic: Topic): nat {
    if topic == Completion then |s.completions| else |s.compactions|
  }

  function Emitted(c: Checkpoint, topic: Topic): nat {
    if topic == Completion then c.completions else c.compactions
  }

  // The event log, in which a write may be cut short without notice.

  /** How much of its line a write put down: all of it, all but the newline, or less. */
  datatype Cut = Whole | Unended | Short

  datatype Line = Kept(event: Event) | Garbled

  /** The lines of the log, and whether the last one still lacks its newline. */
  datatype File = File(lines: seq<Line>, open: bool)

  /** A write after a line without its newline runs into that line, and both are lost. */
  function Put(f: File, e: Event, cut: Cut): File {
    var before := if f.open && f.lines != [] then f.lines[..|f.lines| - 1] else f.lines;
    File(before + [if f.open || cut == Short then Garbled else Kept(e)], cut != Whole)
  }

  function FileOf(written: seq<Event>, cuts: seq<Cut>): File
    requires |written| == |cuts|
  {
    if written == [] then File([], false)
    else
      var n := |written| - 1;
      Put(FileOf(written[..n], cuts[..n]), written[n], cuts[n])
  }

  /** A line that is no event makes the whole log unreadable. */
  predicate Readable(f: File) {
    Garbled !in f.lines
  }

  /** A write is kept exactly when it was not cut within its event, and runs into no line before it or after it. */
  predicate Stands(cuts: seq<Cut>, k: nat)
    requires k < |cuts|
  {
    cuts[k] != Short && (k == 0 || cuts[k - 1] == Whole) && (k == |cuts| - 1 || cuts[k] == Whole)
  }

  /** Every write was complete, but that the last may lack its newline. */
  predicate Intact(cuts: seq<Cut>) {
    forall k :: 0 <= k < |cuts| ==> Stands(cuts, k)
  }

  /** The log after some writes: its last line, and whose events the lines before hold. */
  ghost predicate Shaped(f: File, written: seq<Event>, cuts: seq<Cut>)
    requires |written| == |cuts|
  {
    var n := |written|;
    && (n == 0 ==> f == File([], false))
    && (n > 0 ==>
          && f.lines != [] && f.open == (cuts[n - 1] != Whole) && Kept(written[n - 1]) !in f.lines[..|f.lines| - 1]
          && f.lines[|f.lines| - 1] == (if Stands(cuts, n - 1) then Kept(written[n - 1]) else Garbled))
    && (forall e :: Kept(e) in f.lines ==> e in written)
  }

  lemma PutShape(f: File, written: seq<Event>, cuts: seq<Cut>, e: Event, cut: Cut)
    requires |written| == |cuts| && Shaped(f, written, cuts) && e !in written
    ensures Shaped(Put(f, e, cut), written + [e], cuts + [cut])
  {
    var f' := Put(f, e, cut);
    assert f'.lines[..|f'.lines| - 1] == if f.open then f.lines[..|f.lines| - 1] else f.lines;
  }

  lemma FileStep(written: seq<Event>, cuts: seq<Cut>)
    requires |written| == |cuts| > 0 && Distinct(written)
    ensures var n := |written| - 1;
            && FileOf(written, cuts) == Put(FileOf(written[..n], cuts[..n]), written[n], cuts[n])
            && Distinct(written[..n]) && written[n] !in written[..n]
            && written == written[..n] + [written[n]] && cuts == cuts[..n] + [cuts[n]]
  {
    hide FileOf, Put, Distinct;
    DistinctStep(written);
    FileOfStep(written, cuts);
    LastSplit(cuts);
  }

  lemma LastSplit<T>(s: seq<T>)
    requires s != []
    ensures s == s[..|s| - 1] + [s[|s| - 1]]
  {
  }

  lemma FileOfStep(written: seq<Event>, cuts: seq<Cut>)
    requires |written| == |cuts| > 0
    ensures var n := |written| - 1;
            FileOf(written, cuts) == Put(FileOf(written[..n], cuts[..n]), written[n], cuts[n])
  {
    hide Put;
  }

  lemma DistinctStep(written: seq<Event>)
    requires |written| > 0 && Distinct(written)
    ensures var n := |written| - 1;
            Distinct(written[..n]) && written[n] !in written[..n] && written == written[..n] + [written[n]]
  {
  }

  lemma {:induction false} FileShape(written: seq<Event>, cuts: seq<Cut>)
    requires |written| == |cuts| && Distinct(written)
    ensures Shaped(FileOf(written, cuts), written, cuts)
  {
    if written != [] {
      hide FileOf, Put, Shaped, Distinct;
      var n := |written| - 1;
      FileStep(written, cuts);
      FileShape(written[..n], cuts[..n]);
      PutShape(FileOf(written[..n], cuts[..n]), written[..n], cuts[..n], written[n], cuts[n]);
    }
  }

  /** Event by event, what the log keeps. */
  lemma {:induction false} KeptExactly(written: seq<Event>, cuts: seq<Cut>, k: nat)
    requires |written| == |cuts| && Distinct(written) && k < |written|
    ensures Kept(written[k]) in FileOf(written, cuts).lines <==> Stands(cuts, k)
  {
    hide FileOf, Put, Shaped, Distinct, Stands;
    var n := |written| - 1;
    FileStep(written, cuts);
    FileShape(written[..n], cuts[..n]);
    if k < n {
      KeptExactly(written[..n], cuts[..n], k);
    }
    PutKeeps(FileOf(written[..n], cuts[..n]), written[..n], cuts[..n], written[n], cuts[n], k);
  }

  /** One more write: what it does to the last one, and nothing to the others. */
  lemma PutKeeps(f: File, written: seq<Event>, cuts: seq<Cut>, e: Event, cut: Cut, k: nat)
    requires |written| == |cuts| && Shaped(f, written, cuts) && e !in written && k <= |written|
    requires k < |written| ==> (Kept(written[k]) in f.lines <==> Stands(cuts, k))
    requires Distinct(written)
    ensures Kept((written + [e])[k]) in Put(f, e, cut).lines <==> Stands(cuts + [cut], k)
  {
    PutShape(f, written, cuts, e, cut);
    if |written| > 0 {
      assert f.lines == f.lines[..|f.lines| - 1] + [f.lines[|f.lines| - 1]];
    }
  }

  /** The log can be read exactly when it keeps every write. */
  lemma {:induction false} ReadableExactly(written: seq<Event>, cuts: seq<Cut>)
    requires |written| == |cuts| && Distinct(written)
    ensures Readable(FileOf(written, cuts)) <==> Intact(cuts)
  {
    if written != [] {
      hide FileOf, Put, Shaped, Distinct, Stands, Intact, Readable;
      var n := |written| - 1;
      FileStep(written, cuts);
      FileShape(written[..n], cuts[..n]);
      ReadableExactly(written[..n], cuts[..n]);
      PutReadable(FileOf(written[..n], cuts[..n]), written[..n], cuts[..n], written[n], cuts[n]);
      IntactPrefix(cuts, n);
    }
  }

  lemma PutReadable(f: File, written: seq<Event>, cuts: seq<Cut>, e: Event, cut: Cut)
    requires |written| == |cuts| && Shaped(f, written, cuts)
    ensures Readable(Put(f, e, cut)) <==> Readable(f) && Stands(cuts + [cut], |cuts|)
  {
    if |written| > 0 {
      assert f.lines == f.lines[..|f.lines| - 1] + [f.lines[|f.lines| - 1]];
    }
  }

  lemma IntactPrefix(cuts: seq<Cut>, n: nat)
    requires |cuts| == n + 1
    ensures Intact(cuts) <==> Intact(cuts[..n]) && Stands(cuts, n)
  {
    if Intact(cuts) {
      forall k | 0 <= k < n
        ensures Stands(cuts[..n], k)
      {
        assert Stands(cuts, k);
      }
    }
    if Intact(cuts[..n]) && Stands(cuts, n) {
      forall k | 0 <= k < n
        ensures Stands(cuts, k)
      {
        assert Stands(cuts[..n], k);
      }
    }
  }

  predicate Distinct(log: seq<Event>) {
    forall i, j :: 0 <= i < j < |log| ==> log[i] != log[j]
  }

  /** The ordinals logged for a topic are exactly 1 to n. */
  predicate Upto(log: seq<Event>, topic: Topic, n: nat) {
    && (forall e <- log :: e.topic == topic ==> 1 <= e.ordinal <= n)
    && (forall k: nat :: 1 <= k <= n ==> Event(topic, k) in log)
  }

  /** This summary is what the consumed part of the transcript scans to. */
  predicate Of(parse: Parser, client: Client, s: string, offset: nat, summary: Summary) {
    && offset <= |s| && (offset == 0 || s[offset - 1] == '\n')
    && Scan(parse, s[..offset], 0, Fresh(client)) == Read(summary.(partial := false), offset)
  }

  /** A later scan consumes no less, and counts no less. */
  lemma OfGrows(parse: Parser, client: Client, s: string, offset: nat, summary: Summary)
    requires Of(parse, client, s, offset, summary) && Scan(parse, s, offset, summary.(partial := false)).Read?
    ensures var r := Scan(parse, s, offset, summary.(partial := false));
            && offset <= r.offset <= |s| && Of(parse, client, s, r.offset, r.summary) && '\n' !in s[r.offset..]
            && summary.completions <= r.summary.completions && summary.compactions <= r.summary.compactions
            && Scan(parse, s, 0, Fresh(client)) == r
  {
    hide Scan, Feed;
    var clear := summary.(partial := false);
    ScanConsumes(parse, s, offset, clear);
    ScanCounts(parse, s, offset, clear);
    ScanResumes(parse, s[..offset], s, 0, Fresh(client));
    ScanConsumes(parse, s, 0, Fresh(client));
  }

  /** To scan on from a consumed part is to scan it all. */
  lemma OfSame(parse: Parser, client: Client, s: string, offset: nat, summary: Summary)
    requires Of(parse, client, s, offset, summary)
    ensures Scan(parse, s, 0, Fresh(client)) == Scan(parse, s, offset, summary.(partial := false))
  {
    hide Scan, Feed;
    ScanResumes(parse, s[..offset], s, 0, Fresh(client));
  }

  /** More of the same transcript changes nothing that was consumed. */
  lemma OfStays(parse: Parser, client: Client, s: string, s': string, offset: nat, summary: Summary)
    requires Of(parse, client, s, offset, summary) && s <= s'
    ensures Of(parse, client, s', offset, summary)
  {
    assert s'[..offset] == s[..offset];
  }

  /** Two consumed parts: the longer one counts no less. */
  lemma OfOrdered(parse: Parser, client: Client, s: string, a: nat, x: Summary, b: nat, y: Summary)
    requires Of(parse, client, s, a, x) && Of(parse, client, s, b, y) && a <= b
    ensures x.completions <= y.completions && x.compactions <= y.compactions
  {
    var part := s[..b];
    assert part[..a] == s[..a];
    ScanResumes(parse, part[..a], part, 0, Fresh(client));
    ScanConsumes(parse, part, a, x.(partial := false));
    ScanCounts(parse, part, a, x.(partial := false));
  }

  /** Whenever something was counted, the records so far named the session that is watched, and no other. */
  ghost predicate Named(parse: Parser, client: Client, s: string, session: nat) {
    forall offset: nat, summary :: Of(parse, client, s, offset, summary) ==>
      (summary.session == Some(session) && !summary.conflict) || (summary.completions == [] && summary.compactions == [])
  }

  /** A checkpoint is one scan of the lines it consumed, and has dealt with all they count. */
  predicate Sound(parse: Parser, client: Client, s: string, c: Checkpoint) {
    && Of(parse, client, s, c.offset, c.summary)
    && c.completions == |c.summary.completions| && c.compactions == |c.summary.compactions|
  }

  /** Written were ordinals 1 to `n` of the topic: all that a checkpoint dealt with, and nothing yet uncounted. */
  ghost predicate Dense(log: seq<Event>, saved: seq<Option<Checkpoint>>, reached: Summary, topic: Topic, n: nat) {
    && Upto(log, topic, n) && n <= Counted(reached, topic)
    && forall c <- saved :: c.Some? ==> Emitted(c.value, topic) <= n
  }

  class Watcher {
    const parse: Parser
    const client: Client
    const session: nat
    var transcript: string
    var file: File
    var saved: seq<Option<Checkpoint>>
    ghost var written: seq<Event>
    ghost var cuts: seq<Cut>
    ghost var reach: nat
    ghost var reached: Summary
    ghost var completions: nat
    ghost var compactions: nat

    /** `written` is every event that was ever written to the log, and `cuts` how much of it. */
    ghost predicate Recorded()
      reads this
    {
      |written| == |cuts| && file == FileOf(written, cuts) && Distinct(written)
    }

    ghost predicate Valid()
      reads this
    {
      && saved != [] && Recorded() && Of(parse, client, transcript, reach, reached)
      && forall c <- saved :: c.Some? ==> Sound(parse, client, transcript, c.value) && c.value.offset <= reach
    }

    ghost predicate Exact()
      reads this
    {
      && Dense(written, saved, reached, Completion, completions)
      && Dense(written, saved, reached, Compaction, compactions)
    }

    constructor (parse: Parser, client: Client, session: nat)
      ensures Valid() && Exact() && written == [] && transcript == ""
    {
      this.parse, this.client, this.session := parse, client, session;
      transcript, file, saved, written, cuts := "", File([], false), [None], [], [];
      reach, reached, completions, compactions := 0, Fresh(client), 0, 0;
    }

    /** The transcript only grows. */
    method Grow(more: string)
      requires Valid()
      modifies this`transcript
      ensures Valid() && transcript == old(transcript) + more
    {
      hide Of;
      transcript := transcript + more;
      OfStays(parse, client, old(transcript), transcript, reach, reached);
      forall c <- saved | c.Some?
        ensures Sound(parse, client, transcript, c.value)
      {
        OfStays(parse, client, old(transcript), transcript, c.value.offset, c.value.summary);
      }
    }

    /** Writes one event, of which less than all may reach the log; in the quiet it all does. */
    method Append(e: Event, quiet: bool)
      requires Recorded() && e !in written
      modifies this`file, this`written, this`cuts
      ensures Recorded() && written == old(written) + [e] && old(cuts) <= cuts
      ensures quiet ==> cuts == old(cuts) + [Whole]
    {
      var cut: Cut := Oracle();
      cut := if quiet then Whole else cut;
      file := Put(file, e, cut);
      written, cuts := written + [e], cuts + [cut];
      assert written[..|written| - 1] == old(written) && cuts[..|cuts| - 1] == old(cuts);
    }

    /** The process is killed here, but not in the quiet. */
    method Stops(quiet: bool) returns (stops: bool)
      ensures quiet ==> !stops
    {
      stops := Oracle();
      stops := !quiet && stops;
    }

    /** Appends what is not known to be in the log of the ordinals after `from`; the poll may end after any. */
    method Emit(topic: Topic, from: nat, to: nat, known: set<Event>, quiet: bool, ghost n: nat)
      returns (ok: bool, seen: set<Event>, ghost m: nat)
      requires Recorded() && forall e :: e in known <==> e in written
      modifies this`file, this`written, this`cuts
      ensures Recorded() && old(written) <= written && (forall e :: e in seen <==> e in written)
      ensures forall e <- written[|old(written)|..] :: e.topic == topic
      ensures old(Upto(written, topic, n)) && from <= n <= to ==> n <= m <= to && Upto(written, topic, m) && (ok ==> m == to)
      ensures quiet ==> ok
      ensures ok ==> forall k: nat :: from < k <= to ==> Event(topic, k) in written
    {
      hide FileOf, Put;
      m, seen := n, known;
      ghost var exact := Upto(written, topic, n) && from <= n <= to;
      for index := from to (if from <= to then to else from)
        invariant Recorded() && old(written) <= written && forall e :: e in seen <==> e in written
        invariant forall e <- written[|old(written)|..] :: e.topic == topic
        invariant exact ==> n <= m <= to && index <= m && Upto(written, topic, m)
        invariant forall k: nat :: from < k <= index ==> Event(topic, k) in written
      {
        var e := Event(topic, index + 1);
        if e !in seen {
          var stops := Stops(quiet);
          if stops {
            return false, seen, m;
          }
          Append(e, quiet);
          seen, m := seen + {e}, m + 1;
          stops := Stops(quiet);
          if stops {
            return false, seen, m;
          }
        }
      }
      ok := true;
    }

    /** The transcript is not, or not only, of the session that is watched. */
    predicate Foreign(s: Summary) {
      s.session != Some(session) || s.conflict
    }

    /** A finished poll: its checkpoint is the scan of the whole transcript, and all it counts is dealt with. */
    predicate Finished()
      reads this
    {
      var r := Scan(parse, transcript, 0, Fresh(client));
      && r.Read? && saved != []
      && saved[|saved| - 1] == Some(Checkpoint(r.offset, r.summary, |r.summary.completions|, |r.summary.compactions|))
    }

    /** What the visible checkpoint resumes from. */
    method Resume() returns (c: Checkpoint)
      requires Valid()
      ensures Sound(parse, client, transcript, c) && c.offset <= reach
      ensures Exact() ==> c.completions <= completions && c.compactions <= compactions
    {
      var last := saved[|saved| - 1];
      assert last in saved;
      c := if last.Some? then last.value else Checkpoint(0, Fresh(client), 0, 0);
    }

    /**
     One poll. An unreadable log refuses it. The checkpoint it leaves is one scan of all complete lines, and nothing
     is written twice. If the transcript named its session before anything was counted, a finished poll has written
     exactly the ordinals 1 to n; the log keeps them all exactly when no write but the last was cut short, and the
     last by no more than its newline. A poll that nothing stops finishes whenever the log and the transcript can be read.
     */
    method Poll(quiet: bool, admission: Option<nat>) returns (finished: bool)
      requires Valid()
      modifies this
      ensures Valid() && old(written) <= written && transcript == old(transcript)
      ensures !Readable(old(file)) ==> !finished && file == old(file) && written == old(written) && saved == old(saved)
      ensures old(Exact()) && Named(parse, client, transcript, session) ==> Exact()
      ensures finished ==> Scan(parse, transcript, 0, Fresh(client)).Read?
      ensures finished && old(Exact()) && Named(parse, client, transcript, session) ==>
                var s := Scan(parse, transcript, 0, Fresh(client)).summary;
                Upto(written, Completion, |s.completions|) && Upto(written, Compaction, |s.compactions|)
      ensures Intact(cuts) <==> forall e <- written :: Kept(e) in file.lines
      ensures Intact(cuts) <==> Readable(file)
      ensures quiet ==> (finished <==> Readable(old(file)) && Scan(parse, transcript, 0, Fresh(client)).Read?)
      ensures finished ==> Finished()
      ensures finished && Foreign(Scan(parse, transcript, 0, Fresh(client)).summary) ==>
                forall e <- written[|old(written)|..] :: e.topic == Admission
      ensures finished && admission.Some? ==> Event(Admission, admission.value + 1) in written
    {
      hide Of, Upto, Distinct, Scan, Named, FileOf, Put, Intact, Stands;
      Keeping(written, cuts);
      if !Readable(file) {
        return false;
      }
      finished := Proceed(set l | l in file.lines && l.Kept? :: l.event, quiet, admission);
      Keeping(written, cuts);
    }

    /** A poll that could read the log. */
    method Proceed(known: set<Event>, quiet: bool, admission: Option<nat>) returns (finished: bool)
      requires Valid() && forall e :: e in known <==> e in written
      modifies this
      ensures Valid() && old(written) <= written && transcript == old(transcript)
      ensures old(Exact()) && Named(parse, client, transcript, session) ==> Exact()
      ensures finished ==> Scan(parse, transcript, 0, Fresh(client)).Read?
      ensures finished && old(Exact()) && Named(parse, client, transcript, session) ==>
                var s := Scan(parse, transcript, 0, Fresh(client)).summary;
                Upto(written, Completion, |s.completions|) && Upto(written, Compaction, |s.compactions|)
      ensures quiet ==> (finished <==> Scan(parse, transcript, 0, Fresh(client)).Read?)
      ensures finished ==> Finished()
      ensures finished && Foreign(Scan(parse, transcript, 0, Fresh(client)).summary) ==>
                forall e <- written[|old(written)|..] :: e.topic == Admission
      ensures finished && admission.Some? ==> Event(Admission, admission.value + 1) in written
    {
      hide Of, Upto, Distinct, Scan, Named, FileOf, Put;
      var c := Resume();
      OfSame(parse, client, transcript, c.offset, c.summary);
      OfWithin(parse, client, transcript, c.offset, c.summary);
      var r := ScanFrom(parse, transcript, c.offset, c.summary);
      if r.Invalid? {
        return false;
      }
      OfGrows(parse, client, transcript, c.offset, c.summary);
      Farthest(parse, client, transcript, reach, reached, r.offset, r.summary);
      reach, reached := r.offset, r.summary;
      ghost var exact := old(Exact()) && Named(parse, client, transcript, session);
      var named := r.summary.session == Some(session) && !r.summary.conflict;
      if !named && exact {
        Uncounted(parse, client, transcript, session, r.offset, r.summary);
      }
      var ok := EmitAll(c, r.summary, named, known, quiet, admission, exact);
      if !ok {
        return false;
      }
      var stops := Stops(quiet);
      if stops {
        return false;
      }
      var next := Checkpoint(r.offset, r.summary, |r.summary.completions|, |r.summary.compactions|);
      saved := saved + [Some(next)];
      finished := true;
    }

    /** The events of a poll: what was counted, if the session is the watched one, and an admission that is new. */
    method EmitAll(
      c: Checkpoint, s: Summary, named: bool, known: set<Event>, quiet: bool, admission: Option<nat>, ghost exact: bool)
      returns (ok: bool)
      requires Recorded() && forall e :: e in known <==> e in written
      requires exact ==> Exact() && reached == s && c.completions <= completions && c.compactions <= compactions
      requires exact && !named ==> s.completions == [] && s.compactions == []
      modifies this`file, this`written, this`cuts, this`completions, this`compactions
      ensures Recorded() && old(written) <= written
      ensures exact ==> Exact() && (ok ==> completions == |s.completions| && compactions == |s.compactions|)
      ensures quiet ==> ok
      ensures ok && admission.Some? ==> Event(Admission, admission.value + 1) in written
      ensures ok && named ==> forall k: nat :: c.completions < k <= |s.completions| ==> Event(Completion, k) in written
      ensures ok && named ==> forall k: nat :: c.compactions < k <= |s.compactions| ==> Event(Compaction, k) in written
      ensures !named ==> forall e <- written[|old(written)|..] :: e.topic == Admission
    {
      hide Upto, Distinct, FileOf, Put;
      ghost var m;
      var seen := known;
      ok := true;
      if named {
        ghost var before := written;
        ok, seen, m := Emit(Completion, c.completions, |s.completions|, seen, quiet, completions);
        UptoOther(before, written, Completion, Compaction, compactions);
        completions := if exact then m else completions;
        if !ok {
          return;
        }
        before := written;
        ok, seen, m := Emit(Compaction, c.compactions, |s.compactions|, seen, quiet, compactions);
        UptoOther(before, written, Compaction, Completion, completions);
        compactions := if exact then m else compactions;
        if !ok {
          return;
        }
      }
      if admission.Some? {
        ghost var before := written;
        ok, seen, m := Emit(Admission, admission.value, admission.value + 1, seen, quiet, 0);
        UptoOther(before, written, Admission, Completion, completions);
        UptoOther(before, written, Admission, Compaction, compactions);
      }
    }

    /** A checkpoint's directory is never synced: a loss of power may bring back any of them, or none. */
    method LosePower()
      requires Valid()
      modifies this`saved
      ensures Valid() && (old(Exact()) ==> Exact())
    {
      var k: nat := Oracle();
      saved := [saved[k % |saved|]];
    }
  }

  lemma Keeping(written: seq<Event>, cuts: seq<Cut>)
    requires |written| == |cuts| && Distinct(written)
    ensures var f := FileOf(written, cuts);
            && (Readable(f) <==> Intact(cuts)) && (Intact(cuts) <==> forall e <- written :: Kept(e) in f.lines)
            && forall l <- f.lines :: l.Kept? ==> l.event in written
  {
    FileShape(written, cuts);
    ReadableExactly(written, cuts);
    forall k | 0 <= k < |written|
      ensures Kept(written[k]) in FileOf(written, cuts).lines <==> Stands(cuts, k)
    {
      KeptExactly(written, cuts, k);
    }
    hide FileOf, Stands;
  }

  lemma OfWithin(parse: Parser, client: Client, s: string, offset: nat, summary: Summary)
    requires Of(parse, client, s, offset, summary)
    ensures offset <= |s|
  {
  }

  /** A scan of all complete lines reaches at least as far as any consumed part, and counts at least as much. */
  lemma Farthest(parse: Parser, client: Client, s: string, a: nat, x: Summary, b: nat, y: Summary)
    requires Of(parse, client, s, a, x) && Of(parse, client, s, b, y) && b <= |s| && '\n' !in s[b..]
    ensures a <= b && x.completions <= y.completions && x.compactions <= y.compactions
  {
    assert a <= b by {
      assert forall k :: b <= k < |s| ==> s[k] == s[b..][k - b];
    }
    OfOrdered(parse, client, s, a, x, b, y);
  }

  lemma Uncounted(parse: Parser, client: Client, s: string, session: nat, offset: nat, summary: Summary)
    requires Named(parse, client, s, session) && Of(parse, client, s, offset, summary)
    requires summary.session != Some(session) || summary.conflict
    ensures summary.completions == [] && summary.compactions == []
  {
  }

  lemma UptoOther(before: seq<Event>, after: seq<Event>, topic: Topic, other: Topic, n: nat)
    requires before <= after && topic != other && forall e <- after[|before|..] :: e.topic == topic
    ensures Upto(before, other, n) ==> Upto(after, other, n)
  {
  }

  /** Polls, growth and losses of power in any order: one scan behind every checkpoint, and no event written
      twice. */
  method AnyRun(w: Watcher, steps: nat)
    requires w.Valid()
    modifies w
    ensures w.Valid() && old(w.written) <= w.written && old(w.transcript) <= w.transcript
  {
    hide Of, Distinct, FileOf;
    for i := 0 to steps
      invariant w.Valid() && old(w.written) <= w.written && old(w.transcript) <= w.transcript
    {
      if * {
        var quiet: bool := Oracle();
        var admission: Option<nat> := Oracle();
        var _ := w.Poll(quiet, admission);
      } else if * {
        var more: string := Oracle();
        w.Grow(more);
      } else {
        w.LosePower();
      }
    }
  }

  /** A transcript that names its session in time, did so all along. */
  lemma NamedEarlier(parse: Parser, client: Client, s: string, whole: string, session: nat)
    requires s <= whole && Named(parse, client, whole, session)
    ensures Named(parse, client, s, session)
  {
    hide Of;
    forall offset: nat, summary | Of(parse, client, s, offset, summary)
      ensures (summary.session == Some(session) && !summary.conflict) || (summary.completions == [] && summary.compactions == [])
    {
      OfStays(parse, client, s, whole, offset, summary);
    }
  }

  /** And when the transcript, as it will be, names its session in time, what is written never has a gap. */
  method AnyNamedRun(w: Watcher, whole: string, steps: nat)
    requires w.Valid() && w.Exact() && w.transcript <= whole && Named(w.parse, w.client, whole, w.session)
    modifies w
    ensures w.Valid() && w.Exact() && w.transcript <= whole
  {
    hide Of, Distinct, Upto, Named, FileOf;
    for i := 0 to steps
      invariant w.Valid() && w.Exact() && w.transcript <= whole
    {
      if * {
        NamedEarlier(w.parse, w.client, w.transcript, whole, w.session);
        var quiet: bool := Oracle();
        var admission: Option<nat> := Oracle();
        var _ := w.Poll(quiet, admission);
      } else if * {
        var more: string := Oracle();
        if w.transcript + more <= whole {
          w.Grow(more);
        }
      } else {
        w.LosePower();
      }
    }
  }
}

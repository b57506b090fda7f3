/**
 The bounded scan of captured output for finding lines. Each logical line is read
 in chunks, and the last bytes of one chunk are searched again with the next; the
 result is that of searching every whole line. Bytes are written as characters.
 */
module FindingScan {
  const Chunk: nat := 1024
  const Overlap: nat := 16

  /** Keywords found anywhere in a line, and words that are a whole line, all in lower case. */
  datatype Patterns = Patterns(keywords: set<string>, lines: set<string>)

  /** The patterns this scan is right for: keywords that fit the overlap and one byte more,
   and lines shorter than the overlap. */
  predicate Fit(p: Patterns) {
    && (forall w <- p.keywords :: 0 < |w| <= Overlap + 1 && '\n' !in w)
    && (forall w <- p.lines :: |w| < Overlap && '\n' !in w)
  }

  const Digits: set<string> := {"0", "1", "2", "3", "4", "5", "6", "7", "8", "9"}

  /** `error|fail|traceback|passed|ran \d+|^OK$`; a number is found with its first digit. */
  const Finding: Patterns :=
    Patterns({"error", "fail", "traceback", "passed"} + (set d | d in Digits :: "ran " + d), {"ok"})

  lemma FindingFits()
    ensures Fit(Finding)
  {
  }

  function Lower(c: char): char {
    if 'A' <= c <= 'Z' then c + ' ' else c
  }

  const Capitals := "ABCDEFGHIJKLMNOPQRSTUVWXYZ"
  const Smalls := "abcdefghijklmnopqrstuvwxyz"

  /** The same character, but for the case of a letter. */
  ghost predicate SameLetter(a: char, b: char) {
    a == b || exists k :: 0 <= k < 26 && (a, b) in {(Capitals[k], Smalls[k]), (Smalls[k], Capitals[k])}
  }

  lemma LowerIgnoresCase(a: char, b: char)
    ensures Lower(a) == Lower(b) <==> SameLetter(a, b)
  {
    Alphabet();
    if Lower(a) == Lower(b) && a != b {
      var k := if a < b then a as int - 'A' as int else b as int - 'A' as int;
      assert 0 <= k < 26;
      assert Capitals[k] as int == 'A' as int + k && Smalls[k] as int == 'a' as int + k;
    }
  }

  lemma Alphabet()
    ensures forall k :: 0 <= k < 26 ==> Capitals[k] == 'A' + k as char && Smalls[k] == 'a' + k as char
    ensures forall k :: 0 <= k < 26 ==> Lower(Capitals[k]) == Smalls[k] == Lower(Smalls[k])
  {
  }

  function Fold(s: string): (r: string)
    ensures |r| == |s| && forall i :: 0 <= i < |s| ==> r[i] == Lower(s[i])
  {
    seq(|s|, i requires 0 <= i < |s| => Lower(s[i]))
  }

  lemma FoldSlice(s: string, i: nat, j: nat)
    requires i <= j <= |s|
    ensures Fold(s[i..j]) == Fold(s)[i..j]
  {
  }

  lemma FoldAppend(a: string, b: string)
    ensures Fold(a + b) == Fold(a) + Fold(b)
  {
  }

  predicate At(text: string, i: int, w: string) {
    0 <= i <= |text| - |w| && text[i..i + |w|] == w
  }

  predicate Occurs(text: string, w: string) {
    exists i :: 0 <= i <= |text| - |w| && At(text, i, w)
  }

  predicate Keyword(text: string, p: Patterns) {
    exists w <- p.keywords :: Occurs(Fold(text), w)
  }

  /** `$` also matches before a final newline. */
  predicate WholeLine(text: string, p: Patterns) {
    exists w <- p.lines :: Fold(text) == w || Fold(text) == w + "\n"
  }

  predicate Search(text: string, p: Patterns) {
    Keyword(text, p) || WholeLine(text, p)
  }

  /** A line is found for a keyword in any case, and for nothing else than its keywords and whole-line words. */
  lemma FindsAnyCase(text: string, p: Patterns)
    requires forall w <- p.keywords :: Fold(w) == w
    ensures Keyword(text, p) <==>
            exists w <- p.keywords, i :: 0 <= i <= |text| - |w| && Spells(text, i, w)
  {
    forall w, i | w in p.keywords && 0 <= i <= |text| - |w|
      ensures At(Fold(text), i, w) <==> Spells(text, i, w)
    {
      SpellsAt(text, i, w);
    }
  }

  /** From `i` on the text spells the word, in any case. */
  ghost predicate Spells(text: string, i: int, w: string) {
    0 <= i <= |text| - |w| && forall k :: 0 <= k < |w| ==> SameLetter(text[i + k], w[k])
  }

  lemma SpellsAt(text: string, i: int, w: string)
    requires 0 <= i <= |text| - |w| && Fold(w) == w
    ensures At(Fold(text), i, w) <==> Spells(text, i, w)
  {
    forall k | 0 <= k < |w|
      ensures Fold(text)[i..i + |w|][k] == w[k] <==> SameLetter(text[i + k], w[k])
    {
      LowerIgnoresCase(text[i + k], w[k]);
      assert Fold(w)[k] == w[k];
    }
    hide SameLetter;
  }

  /** "ran " and a digit. */
  predicate Ran(t: string, i: int) {
    At(t, i, "ran ") && i + 4 < |t| && '0' <= t[i + 4] <= '9'
  }

  /** The pattern in use: four words, a counted run, or a line that is just an OK. */
  lemma FindingMeans(text: string)
    ensures Search(text, Finding) <==>
              var t := Fold(text);
              || Occurs(t, "error") || Occurs(t, "fail") || Occurs(t, "traceback") || Occurs(t, "passed")
              || (exists i :: 0 <= i <= |t| && Ran(t, i)) || t == "ok" || t == "ok" + "\n"
  {
    hide Occurs, At, Ran, Fold;
    RanCounts(Fold(text));
    FindingWords(Fold(text));
    assert "ok" in Finding.lines;
    assert forall w <- Finding.lines :: w == "ok";
  }

  lemma RanCounts(t: string)
    ensures (exists i :: 0 <= i <= |t| && Ran(t, i)) <==> exists d <- Digits :: Occurs(t, "ran " + d)
  {
    if i :| 0 <= i <= |t| && Ran(t, i) {
      var d := [t[i + 4]];
      DigitIs(t[i + 4]);
      assert t[i..i + 5] == "ran " + d;
      assert At(t, i, "ran " + d);
    }
    if d :| d in Digits && Occurs(t, "ran " + d) {
      assert |d| == 1 && '0' <= d[0] <= '9';
      var i :| 0 <= i <= |t| - |"ran " + d| && At(t, i, "ran " + d);
      assert t[i..i + 4] == t[i..i + 5][..4] == "ran " && t[i + 4] == t[i..i + 5][4] == d[0];
      assert Ran(t, i);
    }
  }

  lemma DigitIs(c: char)
    ensures '0' <= c <= '9' ==> [c] in Digits
  {
    if '0' <= c <= '9' {
      var k := c as int - '0' as int;
      assert c == "0123456789"[k];
    }
  }

  lemma FindingWords(t: string)
    ensures (exists w <- Finding.keywords :: Occurs(t, w)) <==>
            || Occurs(t, "error") || Occurs(t, "fail") || Occurs(t, "traceback") || Occurs(t, "passed")
            || exists d <- Digits :: Occurs(t, "ran " + d)
  {
    hide Occurs;
    assert "error" in Finding.keywords && "fail" in Finding.keywords && "traceback" in Finding.keywords
           && "passed" in Finding.keywords;
    forall d <- Digits
      ensures "ran " + d in Finding.keywords
    {
    }
  }

  // The specification: whole lines.

  function LineEnd(s: string, start: nat): (e: nat)
    requires start <= |s|
    ensures start <= e <= |s| && '\n' !in s[start..e] && (e < |s| ==> s[e] == '\n')
    decreases |s| - start
  {
    if start == |s| || s[start] == '\n' then start
    else
      var e := LineEnd(s, start + 1);
      assert s[start..e] == [s[start]] + s[start + 1..e];
      e
  }

  datatype Span = Span(start: nat, end: nat)

  /** Every logical line from `start` on that matches as a whole, in order, newlines excluded. */
  function Spans(s: string, start: nat, p: Patterns): seq<Span>
    decreases |s| - start
  {
    if start >= |s| then []
    else
      var e := LineEnd(s, start);
      (if Search(s[start..e], p) then [Span(start, e)] else []) + Spans(s, e + 1, p)
  }

  // Keywords across chunks.

  lemma OccursWithin(a: string, b: string, c: string, w: string)
    requires Occurs(b, w)
    ensures Occurs(a + b + c, w)
  {
    var i :| 0 <= i <= |b| - |w| && At(b, i, w);
    assert (a + b + c)[|a| + i..|a| + i + |w|] == b[i..i + |w|];
    assert At(a + b + c, |a| + i, w);
  }

  /** A keyword of the whole is in the first part, or in the second with its overlap. */
  lemma OccursSplit(a: string, b: string, w: string)
    requires |a| >= Overlap && 0 < |w| <= Overlap + 1
    ensures Occurs(a + b, w) <==> Occurs(a, w) || Occurs(a[|a| - Overlap..] + b, w)
  {
    var k := |a| - Overlap;
    if Occurs(a, w) {
      OccursWithin("", a, b, w);
      assert "" + a + b == a + b;
    }
    if Occurs(a[k..] + b, w) {
      OccursWithin(a[..k], a[k..] + b, "", w);
      assert a[..k] + (a[k..] + b) + "" == a + b;
    }
    if i :| At(a + b, i, w) {
      AtSplit(a, b, i, w);
    }
  }

  lemma AtSplit(a: string, b: string, i: int, w: string)
    requires |a| >= Overlap && 0 < |w| <= Overlap + 1 && At(a + b, i, w)
    ensures At(a, i, w) || At(a[|a| - Overlap..] + b, i - (|a| - Overlap), w)
  {
  }

  /** A final newline changes nothing. */
  lemma OccursNewline(a: string, w: string)
    requires 0 < |w| && '\n' !in w
    ensures Occurs(a + "\n", w) <==> Occurs(a, w)
  {
    if Occurs(a, w) {
      OccursWithin("", a, "\n", w);
      assert "" + a + "\n" == a + "\n";
    }
    if i :| At(a + "\n", i, w) {
      assert w[|w| - 1] == (a + "\n")[i + |w| - 1];
      assert a[i..i + |w|] == (a + "\n")[i..i + |w|];
      assert At(a, i, w);
    }
  }

  lemma SearchNewline(line: string, p: Patterns)
    requires Fit(p) && '\n' !in line
    ensures Search(line + "\n", p) <==> Search(line, p)
  {
    FoldAppend(line, "\n");
    assert Fold("\n") == "\n";
    forall w <- p.keywords
      ensures Occurs(Fold(line + "\n"), w) <==> Occurs(Fold(line), w)
    {
      OccursNewline(Fold(line), w);
    }
    forall w <- p.lines
      ensures (Fold(line + "\n") == w || Fold(line + "\n") == w + "\n") <==> (Fold(line) == w || Fold(line) == w + "\n")
    {
      assert Fold(line + "\n")[|line|] == '\n';
      assert '\n' !in Fold(line);
      assert Fold(line + "\n") == w + "\n" ==> Fold(line) == w by {
        assert Fold(line + "\n")[..|line|] == Fold(line);
      }
    }
  }

  /** Extending a line by one chunk: the overlap with it tells all that the longer line adds. */
  lemma SearchExtends(a: string, b: string, p: Patterns)
    requires Fit(p) && |a| >= Chunk && b != ""
    ensures Search(a + b, p) <==> Search(a, p) || Search(a[|a| - Overlap..] + b, p)
  {
    var tail := a[|a| - Overlap..];
    FoldAppend(a, b);
    FoldAppend(tail, b);
    FoldSlice(a, |a| - Overlap, |a|);
    forall w <- p.keywords
      ensures Occurs(Fold(a + b), w) <==> Occurs(Fold(a), w) || Occurs(Fold(tail + b), w)
    {
      OccursSplit(Fold(a), Fold(b), w);
      assert Fold(a)[|a| - Overlap..] + Fold(b) == Fold(tail + b);
    }
  }

  // The scan.

  /** One bounded read of a line: up to and with its newline, but at most a chunk. */
  predicate IsRead(s: string, at: nat, chunk: string) {
    && at + |chunk| <= |s| && chunk == s[at..at + |chunk|] && |chunk| <= Chunk
    && (chunk == "" <==> at == |s|)
    && (|chunk| < Chunk && (chunk == "" || chunk[|chunk| - 1] != '\n') ==> at + |chunk| == |s|)
    && (chunk != "" ==> '\n' !in s[at..at + |chunk| - 1])
  }

  method ReadLine(s: string, at: nat) returns (chunk: string)
    requires at <= |s|
    ensures IsRead(s, at, chunk)
  {
    var n := 0;
    while n < Chunk && at + n < |s| && (n == 0 || s[at + n - 1] != '\n')
      invariant at + n <= |s| && n <= Chunk
      invariant n > 0 ==> '\n' !in s[at..at + n - 1]
    {
      n := n + 1;
      assert n > 1 ==> s[at..at + n - 1] == s[at..at + n - 2] + [s[at + n - 2]];
    }
    chunk := s[at..at + n];
  }

  function Last(s: string, n: nat): (r: string)
    ensures |r| == if |s| < n then |s| else n
  {
    if |s| < n then s else s[|s| - n..]
  }

  /** Where the scan is: inside the line at `start`, whose part up to `at` is decided. */
  predicate Scanning(s: string, start: nat, at: nat, matched: bool, carry: string, p: Patterns) {
    && start <= at <= |s| && '\n' !in s[start..at]
    && (at == start || at - start >= Chunk || at == |s|)
    && (at < |s| ==> carry == if at == start then "" else s[at - Overlap..at])
    && (matched <==> at > start && Search(s[start..at], p))
  }

  /** The bounded read, as a value. */
  function NextChunk(s: string, at: nat): (chunk: string)
    requires at <= |s|
    ensures IsRead(s, at, chunk)
  {
    var e := LineEnd(s, at);
    var end := if e < |s| then e + 1 else e;
    var stop := if end < at + Chunk then end else at + Chunk;
    assert forall k :: at <= k < e ==> s[k] == s[at..e][k - at];
    s[at..stop]
  }

  lemma ReadsAgree(s: string, at: nat, a: string, b: string)
    requires IsRead(s, at, a) && IsRead(s, at, b)
    ensures a == b
  {
    NoLongerRead(s, at, a, b);
    NoLongerRead(s, at, b, a);
  }

  lemma NoLongerRead(s: string, at: nat, a: string, b: string)
    requires IsRead(s, at, a) && IsRead(s, at, b)
    ensures |b| <= |a|
  {
    assert b != "" ==> forall k :: at <= k < at + |b| - 1 ==> s[k] == s[at..at + |b| - 1][k - at];
  }

  /** What the scan yields from where it is, for any patterns. */
  function Chunked(s: string, start: nat, at: nat, matched: bool, carry: string, p: Patterns): seq<Span>
    requires at <= |s|
    decreases |s| - at
  {
    if at == |s| then if matched then [Span(start, at)] else []
    else
      var chunk := NextChunk(s, at);
      var (found, next) := (matched || Search(carry + chunk, p), at + |chunk|);
      if chunk[|chunk| - 1] == '\n' then
        (if found then [Span(start, next - 1)] else []) + Chunked(s, next, next, false, "", p)
      else Chunked(s, start, next, found, Last(chunk, Overlap), p)
  }

  /** For patterns that fit, that is exactly the lines that match whole. */
  lemma {:induction false} ChunkedIsWhole(s: string, start: nat, at: nat, matched: bool, carry: string, p: Patterns)
    requires Fit(p) && at <= |s| && Scanning(s, start, at, matched, carry, p)
    ensures Chunked(s, start, at, matched, carry, p) == Spans(s, start, p)
    decreases |s| - at
  {
    hide Search, Spans, Fit, Scanning, IsRead;
    var chunk := NextChunk(s, at);
    ReadShape(s, at, chunk);
    if at == |s| {
      Ends(s, start, at, matched, carry, chunk, p);
    } else {
      var found := matched || Search(carry + chunk, p);
      Advances(s, start, at, matched, carry, chunk, p);
      if chunk[|chunk| - 1] == '\n' {
        Begins(s, at + |chunk|, p);
        ChunkedIsWhole(s, at + |chunk|, at + |chunk|, false, "", p);
      } else {
        ChunkedIsWhole(s, start, at + |chunk|, found, Last(chunk, Overlap), p);
      }
    }
  }

  /** One chunk of it. */
  lemma ChunkedStep(s: string, start: nat, at: nat, matched: bool, carry: string, chunk: string, p: Patterns)
    requires at <= |s| && chunk == NextChunk(s, at) && at + |chunk| <= |s| && (chunk == "" <==> at == |s|)
    ensures var (found, next) := (matched || Search(carry + chunk, p), at + |chunk|);
            Chunked(s, start, at, matched, carry, p) ==
              if chunk == "" then if matched then [Span(start, at)] else []
              else if chunk[|chunk| - 1] == '\n' then
                (if found then [Span(start, next - 1)] else []) + Chunked(s, next, next, false, "", p)
              else Chunked(s, start, next, found, Last(chunk, Overlap), p)
  {
    hide Search, IsRead, NextChunk, LineEnd;
  }

  lemma ReadShape(s: string, at: nat, chunk: string)
    requires IsRead(s, at, chunk)
    ensures at + |chunk| <= |s| && (chunk == "" <==> at == |s|)
  {
  }

  /** The chunked scan yields exactly the spans of the lines that match whole, for patterns that fit its overlap. */
  method FindingSpans(s: string, p: Patterns) returns (spans: seq<Span>)
    ensures spans == Chunked(s, 0, 0, false, "", p)
    ensures Fit(p) ==> spans == Spans(s, 0, p)
  {
    hide Search, Spans, Fit, Scanning, IsRead, Chunked, Last, NextChunk;
    var start: nat, at: nat := 0, 0;
    var matched, carry := false, "";
    spans := [];
    var chunk := ReadLine(s, at);
    ReadShape(s, at, chunk);
    ReadsAgree(s, at, chunk, NextChunk(s, at));
    while chunk != ""
      invariant at + |chunk| <= |s| && chunk == NextChunk(s, at) && (chunk == "" <==> at == |s|)
      invariant spans + Chunked(s, start, at, matched, carry, p) == Chunked(s, 0, 0, false, "", p)
      decreases |s| - at
    {
      ChunkedStep(s, start, at, matched, carry, chunk, p);
      var found := matched || Search(carry + chunk, p);
      at := at + |chunk|;
      if chunk[|chunk| - 1] == '\n' {
        spans := spans + if found then [Span(start, at - 1)] else [];
        start, matched, carry := at, false, "";
      } else {
        matched, carry := found, Last(chunk, Overlap);
      }
      chunk := ReadLine(s, at);
      ReadShape(s, at, chunk);
      ReadsAgree(s, at, chunk, NextChunk(s, at));
    }
    ChunkedStep(s, start, at, matched, carry, chunk, p);
    spans := spans + if matched then [Span(start, at)] else [];
    if Fit(p) {
      Begins(s, 0, p);
      ChunkedIsWhole(s, 0, 0, false, "", p);
    }
  }

  // Neither bound can be wider.

  function Fill(c: char, n: nat): (r: string)
    ensures |r| == n && forall i :: 0 <= i < n ==> r[i] == c
  {
    if n == 0 then "" else [c] + Fill(c, n - 1)
  }

  /** A whole-line word as long as the overlap is found at the end of a longer line. */
  lemma LongLineMisleads(w: string)
    requires |w| == Overlap && '\n' !in w && Fold(w) == w
    ensures var (s, p) := (Fill('x', Chunk - Overlap) + w + "\n", Patterns({}, {w}));
            Spans(s, 0, p) == [] && Chunked(s, 0, 0, false, "", p) == [Span(0, Chunk)]
  {
    var (line, p) := (Fill('x', Chunk - Overlap) + w, Patterns({}, {w}));
    var s := line + "\n";
    assert s[..Chunk] == line && s[Chunk..] == "\n" && '\n' !in line;
    LineEndIs(s, 0, Chunk);
    LineEndIs(s, Chunk, Chunk);
    assert s[0..Chunk] == line;
    assert !Search(line, p) && "" + line == line;
    assert NextChunk(s, 0) == line && NextChunk(s, Chunk) == "\n";
    assert Last(line, Overlap) == w;
    FoldAppend(w, "\n");
    assert Fold("\n") == "\n" && WholeLine(w + "\n", p);
    assert Chunked(s, Chunk + 1, Chunk + 1, false, "", p) == [];
    assert Chunked(s, 0, Chunk, false, w, p) == [Span(0, Chunk)];
  }

  /** A keyword two bytes longer than the overlap is missed where two chunks of a line meet in it. */
  lemma LongKeywordMissed(w: string, c: char)
    requires |w| == Overlap + 2 && '\n' !in w && Fold(w) == w && c !in w && c != '\n' && Lower(c) == c
    ensures var (s, p) := (Fill(c, Chunk - Overlap - 1) + w, Patterns({w}, {}));
            Spans(s, 0, p) == [Span(0, |s|)] && Chunked(s, 0, 0, false, "", p) == []
  {
    var (pad, p) := (Fill(c, Chunk - Overlap - 1), Patterns({w}, {}));
    var s := pad + w;
    assert '\n' !in s[0..|s|] && '\n' !in s[Chunk..|s|];
    LineEndIs(s, 0, |s|);
    LineEndIs(s, Chunk, |s|);
    var (first, second) := (s[..Chunk], s[Chunk..]);
    assert NextChunk(s, 0) == first && NextChunk(s, Chunk) == second && "" + first == first && s[0..|s|] == s;
    KeywordSplit(pad, w, c, p);
    var carry := Last(first, Overlap);
    hide Search;
    assert Chunked(s, 0, Chunk, false, carry, p) == Chunked(s, 0, |s|, false, Last(second, Overlap), p) == [];
  }

  lemma KeywordSplit(pad: string, w: string, c: char, p: Patterns)
    requires |w| == Overlap + 2 && Fold(w) == w && c !in w && Lower(c) == c
    requires pad == Fill(c, Chunk - Overlap - 1) && p == Patterns({w}, {})
    ensures var s := pad + w;
            Search(s, p) && !Search(s[..Chunk], p) && !Search(Last(s[..Chunk], Overlap) + s[Chunk..], p)
  {
    var s := pad + w;
    FoldAppend(pad, w);
    assert Fold(pad) == pad && At(s, |pad|, w);
    var first := s[..Chunk];
    forall i | 0 <= i <= |first| - |w|
      ensures !At(Fold(first), i, w)
    {
      assert i < |pad| && first[i] == pad[i] == c;
      assert Fold(first)[i] == c && Fold(first)[i..i + |w|][0] == Fold(first)[i] && w[0] in w;
    }
    assert |Fold(Last(first, Overlap) + s[Chunk..])| < |w|;
  }

  lemma Begins(s: string, at: nat, p: Patterns)
    requires at <= |s|
    ensures Scanning(s, at, at, false, "", p)
  {
  }

  lemma Advances(s: string, start: nat, at: nat, matched: bool, carry: string, chunk: string, p: Patterns)
    requires Fit(p) && Scanning(s, start, at, matched, carry, p) && IsRead(s, at, chunk) && chunk != ""
    ensures at + |chunk| <= |s|
    ensures var found := matched || Search(carry + chunk, p);
            if chunk[|chunk| - 1] == '\n' then
              Spans(s, start, p) == (if found then [Span(start, at + |chunk| - 1)] else []) + Spans(s, at + |chunk|, p)
            else Scanning(s, start, at + |chunk|, found, Last(chunk, Overlap), p)
  {
    hide Search, Spans, Fit;
    var next := at + |chunk|;
    MatchedSoFar(s, start, at, next, p);
    assert s[start..next - 1] == s[start..at] + s[at..next - 1];
    if s[next - 1] == '\n' {
      EndsAt(s, start, next - 1, p);
    } else {
      assert s[start..next] == s[start..next - 1] + [s[next - 1]];
    }
  }

  lemma Ends(s: string, start: nat, at: nat, matched: bool, carry: string, chunk: string, p: Patterns)
    requires Scanning(s, start, at, matched, carry, p) && IsRead(s, at, chunk) && chunk == ""
    ensures Spans(s, start, p) == if matched then [Span(start, at)] else []
  {
  }

  /** What is known of a line after one more chunk. */
  lemma MatchedSoFar(s: string, start: nat, at: nat, next: nat, p: Patterns)
    requires Fit(p) && start <= at < next <= |s| && (at == start || at - start >= Chunk)
    ensures Search(s[start..next], p) <==>
              (at > start && Search(s[start..at], p))
              || Search((if at == start then "" else s[at - Overlap..at]) + s[at..next], p)
  {
    if at == start {
      assert "" + s[at..next] == s[start..next];
    } else {
      SearchExtends(s[start..at], s[at..next], p);
      assert s[start..at] + s[at..next] == s[start..next];
      assert s[start..at][at - start - Overlap..] == s[at - Overlap..at];
    }
  }

  lemma EndsAt(s: string, start: nat, e: nat, p: Patterns)
    requires Fit(p) && start <= e < |s| && s[e] == '\n' && '\n' !in s[start..e]
    ensures Spans(s, start, p) == (if Search(s[start..e + 1], p) then [Span(start, e)] else []) + Spans(s, e + 1, p)
  {
    LineEndIs(s, start, e);
    assert s[start..e + 1] == s[start..e] + "\n";
    SearchNewline(s[start..e], p);
  }

  lemma LineEndIs(s: string, start: nat, e: nat)
    requires start <= e <= |s| && '\n' !in s[start..e] && (e < |s| ==> s[e] == '\n')
    ensures LineEnd(s, start) == e
  {
  }

  // The findings file and the tail of the output.

  const Block: nat := 65536

  /** Copies a span in blocks, whole. */
  method CopySpan(s: string, span: Span) returns (copied: string)
    requires span.start <= span.end <= |s|
    ensures copied == s[span.start..span.end]
  {
    copied := "";
    var offset := span.start;
    while offset < span.end
      invariant span.start <= offset <= span.end && copied == s[span.start..offset]
    {
      var size := if span.end - offset < Block then span.end - offset else Block;
      copied := copied + s[offset..offset + size];
      offset := offset + size;
    }
  }

  /** The lines at the spans, each with a newline. */
  function Listing(s: string, spans: seq<Span>): string
    requires forall x <- spans :: x.start <= x.end <= |s|
  {
    if spans == [] then ""
    else
      var last := spans[|spans| - 1];
      Listing(s, spans[..|spans| - 1]) + s[last.start..last.end] + "\n"
  }

  lemma {:induction false} SpansWithin(s: string, start: nat, p: Patterns)
    ensures forall x <- Spans(s, start, p) :: start <= x.start <= x.end <= |s|
    decreases |s| - start
  {
    if start < |s| {
      SpansWithin(s, LineEnd(s, start) + 1, p);
    }
  }

  function FindingsOf(s: string, p: Patterns): string {
    SpansWithin(s, 0, p);
    Listing(s, Spans(s, 0, p))
  }

  /** All findings of all streams, in order. */
  function Findings(streams: seq<string>, p: Patterns): string {
    if streams == [] then ""
    else
      Findings(streams[..|streams| - 1], p) + FindingsOf(streams[|streams| - 1], p)
  }

  function Count(streams: seq<string>, p: Patterns): nat {
    if streams == [] then 0
    else Count(streams[..|streams| - 1], p) + |Spans(streams[|streams| - 1], 0, p)|
  }

  /** Writes every matching line of every stream, whole and in order, and counts them. */
  method WriteFindings(streams: seq<string>, p: Patterns) returns (findings: string, count: nat)
    requires Fit(p)
    ensures findings == Findings(streams, p) && count == Count(streams, p)
  {
    hide Fit, Spans, FindingsOf;
    findings, count := "", 0;
    for i := 0 to |streams|
      invariant findings == Findings(streams[..i], p) && count == Count(streams[..i], p)
    {
      assert streams[..i + 1][..i] == streams[..i];
      var lines, n := CopyFindings(streams[i], p);
      findings, count := findings + lines, count + n;
    }
    assert streams[..|streams|] == streams;
  }

  method CopyFindings(s: string, p: Patterns) returns (lines: string, count: nat)
    requires Fit(p)
    ensures lines == FindingsOf(s, p) && count == |Spans(s, 0, p)|
  {
    hide Fit, Spans, Chunked;
    var spans := FindingSpans(s, p);
    SpansWithin(s, 0, p);
    lines, count := "", 0;
    for k := 0 to |spans|
      invariant lines == Listing(s, spans[..k]) && count == k
    {
      assert spans[..k + 1][..k] == spans[..k];
      var line := CopySpan(s, spans[k]);
      lines := lines + line + "\n";
      count := count + 1;
    }
    assert spans[..|spans|] == spans;
  }

  function Joined(streams: seq<string>): string {
    if streams == [] then "" else Joined(streams[..|streams| - 1]) + streams[|streams| - 1]
  }

  /** Reads each stream from its end, yet yields the end of all of them together. */
  method OutputTail(streams: seq<string>, size: nat) returns (tail: string)
    ensures tail == Last(Joined(streams), size)
  {
    tail := "";
    for i := 0 to |streams|
      invariant tail == Last(Joined(streams[..i]), size)
    {
      assert streams[..i + 1][..i] == streams[..i];
      LastOfLast(Joined(streams[..i]), streams[i], size);
      tail := Last(tail + Last(streams[i], size), size);
    }
    assert streams[..|streams|] == streams;
  }

  lemma LastOfLast(a: string, b: string, n: nat)
    ensures Last(Last(a, n) + Last(b, n), n) == Last(a + b, n)
  {
  }
}

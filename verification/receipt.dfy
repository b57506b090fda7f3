/**
 The bounded receipt of a captured run: JSON string widths, the longest part that
 fits, the summary, and the size of the printed receipt.
 */
module Receipt {
  import opened Wrappers

  // JSON strings, as printed with every character outside ASCII escaped.

  function Hex(n: nat): char
    requires n < 16
  {
    if n < 10 then '0' + n as char else 'a' + (n - 10) as char
  }

  function Unicode(n: nat): (r: string)
    requires n < 0x10000
    ensures |r| == 6
  {
    ['\\', 'u', Hex(n / 0x1000), Hex(n / 0x100 % 16), Hex(n / 16 % 16), Hex(n % 16)]
  }

  /** One character inside a JSON string; beyond the basic plane it takes two escapes. */
  function Escape(c: char): (r: string)
    ensures 1 <= |r| <= 12
  {
    var n := c as int;
    if c == '"' || c == '\\' then ['\\', c]
    else if c == '\n' then "\\n"
    else if c == '\r' then "\\r"
    else if c == '\t' then "\\t"
    else if n == 8 then "\\b"
    else if n == 12 then "\\f"
    else if ' ' <= c <= '~' then [c]
    else if n < 0x10000 then Unicode(n)
    else Unicode(0xd800 + (n - 0x10000) / 0x400) + Unicode(0xdc00 + (n - 0x10000) % 0x400)
  }

  function Escaped(s: string): string {
    if s == "" then "" else Escape(s[0]) + Escaped(s[1..])
  }

  // Reading a JSON string back.

  function HexValue(c: char): Option<nat> {
    if '0' <= c <= '9' then Some(c as int - '0' as int)
    else if 'a' <= c <= 'f' then Some(c as int - 'a' as int + 10)
    else None
  }

  /** Four hexadecimal digits. */
  function Quad(s: string): (r: Option<nat>)
    requires |s| == 4
    ensures r.Some? ==> r.value < 0x10000
  {
    var (a, b, c, d) := (HexValue(s[0]), HexValue(s[1]), HexValue(s[2]), HexValue(s[3]));
    if a.None? || b.None? || c.None? || d.None? || a.value > 15 || b.value > 15 || c.value > 15 || d.value > 15 then None
    else Some(a.value * 0x1000 + b.value * 0x100 + c.value * 16 + d.value)
  }

  function Then(c: char, rest: Option<string>): Option<string> {
    if rest.Some? then Some([c] + rest.value) else None
  }

  /** What the inside of a JSON string stands for. */
  function Unescaped(s: string): Option<string>
    decreases |s|, 0
  {
    if s == "" then Some("")
    else if s[0] != '\\' then Then(s[0], Unescaped(s[1..]))
    else if |s| < 2 then None
    else match s[1]
         case '"' => Then('"', Unescaped(s[2..]))
         case '\\' => Then('\\', Unescaped(s[2..]))
         case 'n' => Then('\n', Unescaped(s[2..]))
         case 'r' => Then('\r', Unescaped(s[2..]))
         case 't' => Then('\t', Unescaped(s[2..]))
         case 'b' => Then(8 as char, Unescaped(s[2..]))
         case 'f' => Then(12 as char, Unescaped(s[2..]))
         case 'u' => if |s| < 6 then None else FromUnit(Quad(s[2..6]), s[6..])
         case _ => None
  }

  /** A unit stands for itself, unless it is the first of two that stand for one character. */
  function FromUnit(unit: Option<nat>, rest: string): Option<string>
    requires unit.Some? ==> unit.value < 0x10000
    decreases |rest|, 1
  {
    if unit.None? || 0xdc00 <= unit.value < 0xe000 then None
    else if unit.value < 0xd800 || 0xe000 <= unit.value then Then(unit.value as char, Unescaped(rest))
    else if |rest| < 6 || rest[..2] != "\\u" || Quad(rest[2..6]).None? then None
    else
      var low := Quad(rest[2..6]).value;
      if low < 0xdc00 || 0xe000 <= low then None
      else Then((0x10000 + (unit.value - 0xd800) * 0x400 + (low - 0xdc00)) as char, Unescaped(rest[6..]))
  }

  lemma HexBack(n: nat)
    requires n < 16
    ensures HexValue(Hex(n)) == Some(n)
  {
  }

  lemma UnicodeBack(n: nat)
    requires n < 0x10000
    ensures Unicode(n)[..2] == "\\u" && Quad(Unicode(n)[2..6]) == Some(n)
  {
    HexBack(n / 0x1000);
    HexBack(n / 0x100 % 16);
    HexBack(n / 16 % 16);
    HexBack(n % 16);
    FourDigits(n);
    hide Hex, HexValue;
  }

  lemma FourDigits(n: nat)
    requires n < 0x10000
    ensures n / 0x1000 < 16 && n == n / 0x1000 * 0x1000 + n / 0x100 % 16 * 0x100 + n / 16 % 16 * 16 + n % 16
  {
    var q := n / 16;
    var r := q / 16;
    assert r == n / 0x100 && r / 16 == n / 0x1000;
    assert n == q * 16 + n % 16 && q == r * 16 + q % 16 && r == r / 16 * 16 + r % 16;
  }

  lemma UnicodeReads(n: nat, rest: string)
    requires n < 0x10000
    ensures Unescaped(Unicode(n) + rest) == FromUnit(Some(n), rest)
  {
    UnicodeBack(n);
    var s := Unicode(n) + rest;
    assert s[2..6] == Unicode(n)[2..6] && s[6..] == rest;
    assert s[0] == Unicode(n)[..2][0] == '\\' && s[1] == Unicode(n)[..2][1] == 'u';
    hide Quad, FromUnit;
  }

  lemma PairReads(n: nat, rest: string)
    requires 0x10000 <= n < 0x110000
    ensures var (high, low) := (0xd800 + (n - 0x10000) / 0x400, 0xdc00 + (n - 0x10000) % 0x400);
            Unescaped(Unicode(high) + Unicode(low) + rest) == Then(n as char, Unescaped(rest))
  {
    var (high, low) := (0xd800 + (n - 0x10000) / 0x400, 0xdc00 + (n - 0x10000) % 0x400);
    var after := Unicode(low) + rest;
    assert Unicode(high) + Unicode(low) + rest == Unicode(high) + after;
    UnicodeReads(high, after);
    UnicodeBack(low);
    assert after[..2] == Unicode(low)[..2] && after[2..6] == Unicode(low)[2..6] && after[6..] == rest;
    hide Quad, Unicode, Unescaped;
  }

  lemma EscapeReads(c: char, rest: string)
    ensures Unescaped(Escape(c) + rest) == Then(c, Unescaped(rest))
  {
    hide Unescaped, Unicode, Quad;
    var n := c as int;
    if |Escape(c)| == 12 {
      PairReads(n, rest);
    } else if |Escape(c)| == 6 {
      UnicodeReads(n, rest);
    } else {
      ShortReads(c, rest);
    }
  }

  lemma ShortReads(c: char, rest: string)
    requires |Escape(c)| < 6
    ensures Unescaped(Escape(c) + rest) == Then(c, Unescaped(rest))
  {
    hide Unicode, Quad, FromUnit;
    var s := Escape(c) + rest;
    assert s[|Escape(c)|..] == rest;
    if |Escape(c)| == 1 {
      assert s[0] == c;
    } else {
      assert s[0] == '\\' && s[1] == Escape(c)[1];
    }
  }

  /** Reading back what was printed gives the text, so that no two texts print alike. */
  lemma {:induction false} EscapedReads(s: string)
    ensures Unescaped(Escaped(s)) == Some(s)
  {
    if s != "" {
      EscapedReads(s[1..]);
      EscapeReads(s[0], Escaped(s[1..]));
      assert [s[0]] + s[1..] == s;
    }
  }

  function Quoted(s: string): string {
    "\"" + Escaped(s) + "\""
  }

  /** What the text adds to a printed receipt. */
  function Encoded(s: string): nat {
    |Quoted(s)| - 2
  }

  lemma {:induction false} EscapedAppend(a: string, b: string)
    ensures Escaped(a + b) == Escaped(a) + Escaped(b)
  {
    hide Escape;
    if a == "" {
      assert a + b == b;
    } else {
      EscapedAppend(a[1..], b);
      assert (a + b)[0] == a[0] && (a + b)[1..] == a[1..] + b;
      assert Escaped(a + b) == Escape(a[0]) + (Escaped(a[1..]) + Escaped(b));
    }
  }

  lemma EncodedAppend(a: string, b: string)
    ensures Encoded(a + b) == Encoded(a) + Encoded(b)
  {
    EscapedAppend(a, b);
  }

  lemma {:induction false} EncodedAtLeast(s: string)
    ensures Encoded(s) >= |s|
  {
    if s != "" {
      EncodedAtLeast(s[1..]);
    }
  }

  // The longest part that fits.

  function Part(text: string, length: nat, keepHead: bool): (r: string)
    requires length <= |text|
    ensures |r| == length
  {
    if keepHead then text[..length] else text[|text| - length..]
  }

  lemma PartsGrow(text: string, m: nat, n: nat, keepHead: bool)
    requires m < n <= |text|
    ensures Encoded(Part(text, m, keepHead)) < Encoded(Part(text, n, keepHead))
  {
    hide Encoded;
    if keepHead {
      EncodedGrows(text[..m], text[m..n]);
      assert text[..n] == text[..m] + text[m..n];
    } else {
      EncodedGrows(text[|text| - n..|text| - m], text[|text| - m..]);
      assert text[|text| - n..] == text[|text| - n..|text| - m] + text[|text| - m..];
    }
  }

  lemma EncodedGrows(a: string, b: string)
    ensures b != "" ==> Encoded(a) < Encoded(a + b)
    ensures a != "" ==> Encoded(b) < Encoded(a + b)
  {
    hide Encoded;
    EncodedAppend(a, b);
    EncodedAtLeast(a);
    EncodedAtLeast(b);
  }

  /** The longest head, or tail, whose encoding fits; nothing when even that is too much. */
  ghost predicate Longest(text: string, budget: int, keepHead: bool, length: nat) {
    && length <= |text|
    && (length == 0 || Encoded(Part(text, length, keepHead)) <= budget)
    && forall n :: length < n <= |text| ==> Encoded(Part(text, n, keepHead)) > budget
  }

  /** The longest head, or tail, that fits. */
  ghost predicate Fitted(text: string, budget: int, keepHead: bool, part: string) {
    |part| <= |text| && part == Part(text, |part|, keepHead) && Longest(text, budget, keepHead, |part|)
  }

  /** Binary search on the encoding; a part fits exactly when the budget is not negative. */
  method Fit(text: string, budget: int, keepHead: bool) returns (r: string)
    ensures |r| <= |text| && r == Part(text, |r|, keepHead) && Longest(text, budget, keepHead, |r|)
    ensures Encoded(r) <= budget <==> budget >= 0
    ensures r == text <==> text == "" || Encoded(text) <= budget
  {
    hide Encoded;
    var low: nat, high: nat := 0, |text|;
    while low < high
      invariant low <= high <= |text|
      invariant low == 0 || Encoded(Part(text, low, keepHead)) <= budget
      invariant forall n :: high < n <= |text| ==> Encoded(Part(text, n, keepHead)) > budget
    {
      var middle := (low + high + 1) / 2;
      if Encoded(Part(text, middle, keepHead)) <= budget {
        low := middle;
      } else {
        forall n | middle <= n <= |text|
          ensures Encoded(Part(text, n, keepHead)) > budget
        {
          if middle < n {
            PartsGrow(text, middle, n, keepHead);
          }
        }
        high := middle - 1;
      }
    }
    r := Part(text, low, keepHead);
    EncodedEmpty();
    assert Part(text, |text|, keepHead) == text;
    assert low == 0 ==> r == "";
  }

  lemma EncodedEmpty()
    ensures Encoded("") == 0
  {
  }

  // The summary.

  const TailHeader := "\n[bounded tail]\n"
  const HeaderWidth := 18

  lemma HeaderEncodes()
    ensures Encoded(TailHeader) == HeaderWidth
  {
    hide Escaped;
    assert TailHeader == "\n" + "[bounded tail]" + "\n";
    EncodedAppend("\n" + "[bounded tail]", "\n");
    EncodedAppend("\n", "[bounded tail]");
    EncodedPlain("[bounded tail]");
    EncodedNewline();
  }

  lemma EncodedNewline()
    ensures Encoded("\n") == 2
  {
  }

  predicate Plain(c: char) {
    ' ' <= c <= '~' && c != '"' && c != '\\'
  }

  predicate AllPlain(s: string) {
    forall i :: 0 <= i < |s| ==> Plain(s[i])
  }

  lemma {:induction false} EncodedPlain(s: string)
    requires AllPlain(s)
    ensures Encoded(s) == |s|
  {
    if s != "" {
      EncodedPlain(s[1..]);
      assert Plain(s[0]) && Escape(s[0]) == [s[0]];
    }
  }

  function Floor2(n: int): int {
    n / 2
  }

  /**
   The first findings and the output tail. It fits the budget exactly when the header does, and it is untruncated
   exactly when the whole findings file is within the budget and its text within half of what the header leaves.
   */
  method Summary(findings: string, tail: string, budget: int, decode: string -> string) returns (text: string, truncated: bool)
    ensures Encoded(text) <= budget <==> budget >= HeaderWidth
    ensures budget >= HeaderWidth ==>
              (!truncated <==> |findings| <= budget && Encoded(decode(findings)) <= Floor2(budget - HeaderWidth))
    ensures !truncated ==> decode(findings) + TailHeader <= text
    ensures budget >= HeaderWidth ==>
              exists shown, latest ::
                && text == shown + TailHeader + latest
                && Fitted(decode(if |findings| <= budget then findings else findings[..budget]), Floor2(budget - HeaderWidth),
                          true, shown)
                && Fitted(decode(tail), budget - HeaderWidth - Encoded(shown), false, latest)
    ensures budget >= HeaderWidth && |decode(tail)| >= budget && AllPlain(decode(tail)) ==> Encoded(text) == budget
  {
    hide Encoded;
    HeaderEncodes();
    EncodedEmpty();
    var head := decode(if budget < 0 || |findings| <= budget then findings else findings[..budget]);
    var shown := Fit(head, Floor2(budget - HeaderWidth), true);
    var rest := budget - HeaderWidth - Encoded(shown);
    var latest := Fit(decode(tail), rest, false);
    var complete := |findings| <= budget && shown == head;
    text, truncated := shown + TailHeader + latest, !complete;
    assert Fitted(head, Floor2(budget - HeaderWidth), true, shown) && Fitted(decode(tail), rest, false, latest);
    EncodedAppend(shown + TailHeader, latest);
    EncodedAppend(shown, TailHeader);
    if budget >= HeaderWidth && |decode(tail)| >= budget && AllPlain(decode(tail)) {
      PlainFills(decode(tail), rest, |latest|);
    }
  }

  /** Of characters that print as themselves, as many fit as there is room for. */
  lemma PlainFills(text: string, budget: nat, length: nat)
    requires AllPlain(text) && budget <= |text| && Longest(text, budget, false, length)
    ensures Encoded(Part(text, length, false)) == budget
  {
    hide Encoded;
    EncodedPlain(Part(text, length, false));
    EncodedPlain(Part(text, budget, false));
    if length < |text| {
      EncodedPlain(Part(text, length + 1, false));
    }
  }

  // The printed receipt.

  const Limit := 16384
  const SummaryBudget := 4096
  const Slack := 256

  function Decimal(n: nat): (r: string)
    ensures |r| >= 1
  {
    if n < 10 then ['0' + n as char] else Decimal(n / 10) + ['0' + (n % 10) as char]
  }

  function Signed(n: int): string {
    if n < 0 then "-" + Decimal(-n) else Decimal(n)
  }

  /** The number that decimal digits stand for. */
  function Value(s: string): nat
    requires forall i :: 0 <= i < |s| ==> '0' <= s[i] <= '9'
  {
    if s == "" then 0 else 10 * Value(s[..|s| - 1]) + (s[|s| - 1] as int - '0' as int)
  }

  /** A number is printed in decimal digits that stand for it, without a leading zero. */
  lemma {:induction false} DecimalReads(n: nat)
    ensures forall i :: 0 <= i < |Decimal(n)| ==> '0' <= Decimal(n)[i] <= '9'
    ensures Value(Decimal(n)) == n && (n > 0 ==> Decimal(n)[0] != '0')
  {
    if n < 10 {
      assert Decimal(n)[..0] == "";
    } else {
      DecimalReads(n / 10);
      var s := Decimal(n);
      assert s[..|s| - 1] == Decimal(n / 10) && s[|s| - 1] == '0' + (n % 10) as char;
    }
  }

  lemma SignedReads(n: int)
    ensures if n < 0 then Signed(n)[0] == '-' && Signed(n)[1..] == Decimal(-n) else Signed(n) == Decimal(n)
    ensures forall i :: (if n < 0 then 1 else 0) <= i < |Signed(n)| ==> '0' <= Signed(n)[i] <= '9'
    ensures n < 0 ==> 0 - Value(Signed(n)[1..]) == n
    ensures n >= 0 ==> Value(Signed(n)) == n
  {
    DecimalReads(if n < 0 then -n else n);
    hide Value;
  }

  /** Milliseconds are printed as seconds: whole ones, a point, and a fraction of one to three digits. */
  lemma FractionReads(f: nat)
    requires f < 1000
    ensures var s := Fraction(f);
            && 1 <= |s| <= 3 && (forall i :: 0 <= i < |s| ==> '0' <= s[i] <= '9') && (|s| > 1 ==> s[|s| - 1] != '0')
            && Value(s) * (if |s| == 1 then 100 else if |s| == 2 then 10 else 1) == f
  {
    var (a, b, c) := (f / 100, f / 10 % 10, f % 10);
    ThreeDigits(f);
    DigitOne(a);
    DigitOne(b);
    DigitOne(c);
    ValueMore(Decimal(a), '0' + b as char);
    ValueMore(Decimal(a) + Decimal(b), '0' + c as char);
    hide Decimal, Value;
  }

  lemma ThreeDigits(f: nat)
    requires f < 1000
    ensures f / 100 < 10 && f == 100 * (f / 100) + 10 * (f / 10 % 10) + f % 10
    ensures f % 100 == 0 <==> f / 10 % 10 == 0 && f % 10 == 0
  {
  }

  lemma DigitOne(n: nat)
    requires n < 10
    ensures Decimal(n) == ['0' + n as char] && Value(Decimal(n)) == n
  {
    assert Decimal(n)[..0] == "";
  }

  lemma ValueMore(s: string, c: char)
    requires (forall i :: 0 <= i < |s| ==> '0' <= s[i] <= '9') && '0' <= c <= '9'
    ensures Value(s + [c]) == 10 * Value(s) + (c as int - '0' as int)
  {
    assert (s + [c])[..|s|] == s;
  }

  function Power(k: nat): nat {
    if k == 0 then 1 else 10 * Power(k - 1)
  }

  lemma {:induction false} DecimalShort(n: nat, k: nat)
    requires k > 0 && n < Power(k)
    ensures |Decimal(n)| <= k
  {
    if n >= 10 {
      assert k > 1;
      DecimalShort(n / 10, k - 1);
    }
  }

  /** Every 64-bit number is below this. */
  predicate Ordinary(n: int) {
    0 - Power(20) < n < Power(20)
  }

  lemma OrdinaryShort(n: int)
    requires Ordinary(n)
    ensures 1 <= |Signed(n)| <= 21
  {
    DecimalShort(if n < 0 then -n else n, 20);
  }

  datatype Terminal = Exited | TimedOut | Interrupted | DescendantsActive | LaunchFailed

  function Word(t: Terminal): (r: string)
    ensures |r| <= |"descendants_active"|
  {
    match t
    case Exited => "exited"
    case TimedOut => "timeout"
    case Interrupted => "interrupted"
    case DescendantsActive => "descendants_active"
    case LaunchFailed => "launch_failed"
  }

  datatype Bound = Bound(path: string, bytes: nat, sha: string)

  /** Elapsed time is rounded to milliseconds. */
  datatype Run = Run(
    exit: Option<int>, terminal: Terminal, group: Option<int>, elapsed: nat,
    argv: Bound, stdout: Bound, stderr: Bound, findings: Bound, count: nat)

  datatype Place = Place(store: string, cwd: string, receipt: string)

  function Number(n: Option<int>): string {
    if n.Some? then Signed(n.value) else "null"
  }

  /** Seconds, with trailing zeros of the fraction dropped but one digit kept. */
  function Seconds(ms: nat): string {
    Decimal(ms / 1000) + "." + Fraction(ms % 1000)
  }

  function Fraction(f: nat): string
    requires f < 1000
  {
    if f % 100 == 0 then Decimal(f / 100)
    else if f % 10 == 0 then Decimal(f / 100) + Decimal(f / 10 % 10)
    else Decimal(f / 100) + Decimal(f / 10 % 10) + Decimal(f % 10)
  }

  function Object(b: Bound): string {
    "{\"path\": " + Quoted(b.path) + ", \"bytes\": " + Decimal(b.bytes) + ", \"sha256\": " + Quoted(b.sha) + "}"
  }

  function Boolean(b: bool): string {
    if b then "true" else "false"
  }

  function Opening(place: Place, r: Run): string {
    "{\"version\": 2, \"store\": " + Quoted(place.store) + ", \"cwd\": " + Quoted(place.cwd) + ", \"exit\": " + Number(r.exit)
    + ", \"terminal\": " + Quoted(Word(r.terminal)) + ", \"owned_process_group\": " + Number(r.group)
    + ", \"elapsed_seconds\": " + Seconds(r.elapsed)
  }

  function Bindings(r: Run): string {
    ", \"argv\": " + Object(r.argv) + ", \"stdout\": " + Object(r.stdout) + ", \"stderr\": " + Object(r.stderr)
    + ", \"findings\": " + Object(r.findings) + ", \"findings_count\": " + Decimal(r.count)
  }

  function Closing(place: Place, text: string, truncated: bool): string {
    ", \"summary\": " + Quoted(text) + ", \"summary_truncated\": " + Boolean(truncated)
    + ", \"receipt\": " + Quoted(place.receipt) + "}"
  }

  function Printed(place: Place, r: Run, text: string, truncated: bool): string {
    Opening(place, r) + Bindings(r) + Closing(place, text, truncated)
  }

  function Zeros(n: nat): (r: string)
    ensures |r| == n && forall i :: 0 <= i < n ==> r[i] == '0'
  {
    if n == 0 then "" else "0" + Zeros(n - 1)
  }

  function Unmeasured(b: Bound): Bound {
    Bound(b.path, 0, Zeros(64))
  }

  /** What is measured before the launch: the same files, and zeros. */
  function Blank(r: Run): Run {
    Run(Some(0), DescendantsActive, Some(0), 0, Unmeasured(r.argv), Unmeasured(r.stdout), Unmeasured(r.stderr),
        Unmeasured(r.findings), 0)
  }

  predicate IsDigest(s: string) {
    |s| == 64 && forall i :: 0 <= i < |s| ==> '0' <= s[i] <= '9' || 'a' <= s[i] <= 'f'
  }

  predicate Measured(b: Bound) {
    IsDigest(b.sha) && Ordinary(b.bytes)
  }

  predicate Plausible(r: Run) {
    && (r.exit.Some? ==> Ordinary(r.exit.value)) && (r.group.Some? ==> Ordinary(r.group.value))
    && Ordinary(r.elapsed / 1000) && Ordinary(r.count)
    && Measured(r.argv) && Measured(r.stdout) && Measured(r.stderr) && Measured(r.findings)
  }

  lemma ObjectWidens(b: Bound)
    requires Measured(b)
    ensures |Object(b)| <= |Object(Unmeasured(b))| + 20
  {
    hide Encoded, Decimal;
    OrdinaryShort(b.bytes);
    EncodedPlain(b.sha);
    EncodedPlain(Zeros(64));
    DecimalShort(0, 1);
    QuotedWidth(b.sha);
    QuotedWidth(Zeros(64));
  }

  lemma QuotedWidth(s: string)
    ensures |Quoted(s)| == Encoded(s) + 2
  {
  }

  lemma SecondsShort(ms: nat)
    requires Ordinary(ms / 1000)
    ensures |Seconds(ms)| <= 25
  {
    OrdinaryShort(ms / 1000);
  }

  /** The slack covers every number that a run can be measured with. */
  lemma SlackSuffices(place: Place, r: Run)
    requires Plausible(r)
    ensures |Printed(place, r, "", false)| <= |Printed(place, Blank(r), "", false)| + Slack
  {
    hide Seconds, Object, Encoded, Quoted, Signed, Closing, Decimal;
    ObjectWidens(r.argv);
    ObjectWidens(r.stdout);
    ObjectWidens(r.stderr);
    ObjectWidens(r.findings);
    SecondsShort(r.elapsed);
    OpeningWidens(place, r);
    CountWidens(r.count);
  }

  lemma CountWidens(n: nat)
    requires Ordinary(n)
    ensures |Decimal(n)| <= |Decimal(0)| + 20
  {
    OrdinaryShort(n);
  }

  lemma WordPlain(t: Terminal)
    ensures AllPlain(Word(t))
  {
  }

  lemma WordWidens(t: Terminal)
    ensures |Quoted(Word(t))| <= |Quoted(Word(DescendantsActive))|
  {
    hide Encoded, Quoted, AllPlain;
    WordPlain(t);
    WordPlain(DescendantsActive);
    EncodedPlain(Word(t));
    EncodedPlain(Word(DescendantsActive));
    QuotedWidth(Word(t));
    QuotedWidth(Word(DescendantsActive));
  }

  lemma NumberWidens(n: Option<int>)
    requires n.Some? ==> Ordinary(n.value)
    ensures |Number(n)| <= |Number(Some(0))| + 20
  {
    if n.Some? {
      OrdinaryShort(n.value);
    }
    assert |Number(Some(0))| >= 1;
  }

  lemma OpeningWidens(place: Place, r: Run)
    requires (r.exit.Some? ==> Ordinary(r.exit.value)) && (r.group.Some? ==> Ordinary(r.group.value)) && Ordinary(r.elapsed / 1000)
    ensures |Opening(place, r)| <= |Opening(place, Blank(r))| + 65
  {
    hide Seconds, Object, Encoded, Quoted, Word, Number, Ordinary;
    NumberWidens(r.exit);
    NumberWidens(r.group);
    WordWidens(r.terminal);
    SecondsShort(r.elapsed);
  }

  /**
   Refuses before the launch exactly when the paths leave no room; otherwise the receipt keeps within its limit
   whatever the run printed, and one that says it is untruncated holds the complete findings. Printing adds a
   newline, which fits as well whenever the receipt leaves more room than a summary may take.
   */
  method Capture(place: Place, r: Run, findings: string, tail: string, decode: string -> string)
    returns (printed: Option<string>, ghost text: string, ghost truncated: bool)
    requires Plausible(r)
    ensures printed.None? <==> |Printed(place, Blank(r), "", false)| + Slack + HeaderWidth > Limit
    ensures printed.Some? ==> printed.value == Printed(place, r, text, truncated) && |printed.value| <= Limit
    ensures printed.Some? && !truncated ==> decode(findings) + TailHeader <= text
    ensures printed.Some? && Roomy(place, r) ==> |printed.value + "\n"| <= Limit
    ensures printed.Some? && !Roomy(place, r) && Filling(findings, tail, decode) ==> |printed.value + "\n"| == Limit + 1
  {
    hide Encoded, Opening, Bindings, Quoted, Boolean, Plausible, Closing, AllPlain;
    text, truncated := "", false;
    if |Printed(place, Blank(r), "", false)| + Slack + HeaderWidth > Limit {
      return None, text, truncated;
    }
    SlackSuffices(place, r);
    var measured := |Printed(place, r, "", false)|;
    var room := Limit - measured;
    var summary, cut := Summary(findings, tail, if SummaryBudget < room then SummaryBudget else room, decode);
    ClosingWidth(place, summary, cut);
    EncodedEmpty();
    text, truncated := summary, cut;
    printed := Some(Printed(place, r, summary, cut));
  }

  /** Nothing was found, and the output ends in enough characters that print as themselves. */
  predicate Filling(findings: string, tail: string, decode: string -> string) {
    findings == "" && decode(findings) == "" && AllPlain(decode(tail)) && |decode(tail)| >= SummaryBudget
  }

  /** More room is left than a summary may take. */
  predicate Roomy(place: Place, r: Run) {
    |Printed(place, r, "", false)| + SummaryBudget < Limit
  }

  /** Without it, a run whose output is long and holds no finding has its receipt printed one byte over the limit. */
  method NewlineOverflows(place: Place, r: Run) returns (printed: string)
    requires Plausible(r) && !Roomy(place, r)
    requires r.count == 0 && r.findings.bytes == 0 && r.stdout.bytes >= SummaryBudget
    requires |Printed(place, Blank(r), "", false)| + Slack + HeaderWidth <= Limit
    ensures |printed + "\n"| == Limit + 1
  {
    hide Plausible, Printed;
    assert AllPlain(Zeros(SummaryBudget));
    var receipt, _, _ := Capture(place, r, "", Zeros(SummaryBudget), s => s);
    printed := receipt.value;
  }

  lemma ClosingWidth(place: Place, text: string, truncated: bool)
    ensures |Closing(place, text, truncated)| ==
              |Closing(place, "", false)| + Encoded(text) - (if truncated then 1 else 0)
  {
  }
}

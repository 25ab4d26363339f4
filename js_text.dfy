/** The JavaScript string operations the pages use: `indexOf`, `split` with a
    non-empty separator, number-to-text conversion of integers and `parseInt`
    called without a radix. */
module JsText {
  import opened Wrappers

  /** `sep` occurs in `s` starting at position `i`. */
  predicate OccursAt(s: string, sep: string, i: int) {
    0 <= i && i + |sep| <= |s| && s[i..i + |sep|] == sep
  }

  /** `s.indexOf(sep, from)`, with `None` for -1. */
  function IndexOfFrom(s: string, sep: string, from: nat): (r: Option<nat>)
    ensures r.Some? ==> from <= r.value && OccursAt(s, sep, r.value)
    ensures r.Some? ==> forall j :: from <= j < r.value ==> !OccursAt(s, sep, j)
    ensures r.None? ==> forall j :: from <= j ==> !OccursAt(s, sep, j)
    decreases |s| - from
  {
    if from + |sep| > |s| then None
    else if s[from..from + |sep|] == sep then Some(from)
    else IndexOfFrom(s, sep, from + 1)
  }

  /** `s.split(sep)` for a non-empty separator: the pieces between successive
      leftmost occurrences of `sep`. */
  function Split(s: string, sep: string): (parts: seq<string>)
    requires |sep| > 0
    ensures |parts| >= 1
    decreases |s|
  {
    match IndexOfFrom(s, sep, 0)
    case None => [s]
    case Some(k) => [s[..k]] + Split(s[k + |sep|..], sep)
  }

  /** `parts.join(sep)`. */
  function Join(parts: seq<string>, sep: string): string
    decreases |parts|
  {
    if |parts| == 0 then ""
    else if |parts| == 1 then parts[0]
    else parts[0] + sep + Join(parts[1..], sep)
  }

  /** Splitting loses nothing: joining the pieces with the separator gives the
      text back. */
  lemma {:induction false} JoinSplit(s: string, sep: string)
    requires |sep| > 0
    ensures Join(Split(s, sep), sep) == s
    decreases |s|
  {
    match IndexOfFrom(s, sep, 0)
    case None =>
    case Some(k) =>
      var rest := s[k + |sep|..];
      var parts := Split(s, sep);
      assert parts == [s[..k]] + Split(rest, sep);
      assert |parts| >= 2 && parts[0] == s[..k] && parts[1..] == Split(rest, sep);
      calc {
        Join(parts, sep);
        parts[0] + sep + Join(parts[1..], sep);
        { JoinSplit(rest, sep); }
        s[..k] + sep + rest;
        { assert s[k..k + |sep|] == sep; }
        s[..k] + s[k..k + |sep|] + s[k + |sep|..];
        s;
      }
  }

  /** When the first occurrence of `sep` in `a + sep + b` is the one after `a`,
      the first piece is `a` and the others are the pieces of `b`. */
  lemma SplitAtFirst(a: string, sep: string, b: string)
    requires |sep| > 0
    requires forall j :: 0 <= j < |a| ==> !OccursAt(a + sep + b, sep, j)
    ensures Split(a + sep + b, sep) == [a] + Split(b, sep)
  {
    var s := a + sep + b;
    assert s[|a|..|a| + |sep|] == sep;
    assert OccursAt(s, sep, |a|);
    var k := IndexOfFrom(s, sep, 0);
    assert k == Some(|a|);
    assert s[..|a|] == a;
    assert s[|a| + |sep|..] == b;
  }

  /** A text without the separator is a single piece. */
  lemma SplitWithout(s: string, sep: string)
    requires |sep| > 0
    requires forall j :: 0 <= j < |s| ==> !OccursAt(s, sep, j)
    ensures Split(s, sep) == [s]
  {
  }

  /** No piece of a split contains the separator: each piece ends where the
      leftmost remaining occurrence starts. */
  lemma {:induction false} SplitPiecesHaveNoSeparator(s: string, sep: string)
    requires |sep| > 0
    ensures forall i, j :: 0 <= i < |Split(s, sep)| ==> !OccursAt(Split(s, sep)[i], sep, j)
    decreases |s|
  {
    match IndexOfFrom(s, sep, 0)
    case None =>
      forall j ensures !OccursAt(s, sep, j) {
        if j < 0 {
        }
      }
    case Some(k) =>
      var rest := s[k + |sep|..];
      var parts := Split(s, sep);
      assert parts == [s[..k]] + Split(rest, sep);
      SplitPiecesHaveNoSeparator(rest, sep);
      forall i, j | 0 <= i < |parts| ensures !OccursAt(parts[i], sep, j) {
        if i == 0 {
          if OccursAt(s[..k], sep, j) {
            assert s[..k][j..j + |sep|] == s[j..j + |sep|];
            assert OccursAt(s, sep, j);
          }
        } else {
          assert parts[i] == Split(rest, sep)[i - 1];
        }
      }
  }

  /** Every occurrence of `sep` starts with its first character, so a text
      without that character has no occurrence. */
  lemma NoOccurrenceWithout(s: string, sep: string, i: int)
    requires |sep| > 0
    requires forall j :: 0 <= j < |s| ==> s[j] != sep[0]
    ensures !OccursAt(s, sep, i)
  {
    if 0 <= i && i + |sep| <= |s| {
      assert s[i..i + |sep|][0] == s[i] != sep[0];
    }
  }

  predicate IsDigit(c: char) {
    '0' <= c <= '9'
  }

  predicate AllDigits(s: string) {
    forall i :: 0 <= i < |s| ==> IsDigit(s[i])
  }

  function DigitValue(c: char): nat
    requires IsDigit(c)
  {
    c as int - '0' as int
  }

  function DigitChar(d: nat): (c: char)
    requires d < 10
    ensures IsDigit(c) && DigitValue(c) == d
  {
    ('0' as int + d) as char
  }

  /** The decimal numeral of a natural number, as `String(n)` writes it. */
  function Digits(n: nat): (s: string)
    ensures |s| >= 1 && AllDigits(s)
    decreases n
  {
    if n < 10 then [DigitChar(n)] else Digits(n / 10) + [DigitChar(n % 10)]
  }

  /** `String(n)` for an integer. */
  function DecimalText(n: int): string {
    if n < 0 then "-" + Digits(-n) else Digits(n)
  }

  /** The value of a run of digits, most significant first. */
  function DigitsValue(ds: string): nat
    requires AllDigits(ds)
    decreases |ds|
  {
    if |ds| == 0 then 0 else DigitsValue(ds[..|ds| - 1]) * 10 + DigitValue(ds[|ds| - 1])
  }

  /** The length of the run of digits that `s` starts with. */
  function DigitRun(s: string): (k: nat)
    ensures k <= |s| && AllDigits(s[..k])
    ensures k < |s| ==> !IsDigit(s[k])
  {
    if |s| == 0 || !IsDigit(s[0]) then 0
    else
      var k := 1 + DigitRun(s[1..]);
      assert s[..k] == [s[0]] + s[1..][..k - 1];
      k
  }

  /** The white-space characters `parseInt` skips before the number (the
      space, the ASCII control white space, no-break space and the byte-order
      mark). */
  predicate IsSpace(c: char) {
    c == ' ' || c == '\t' || c == '\n' || c == '\r' || c == '\U{B}' || c == '\U{C}'
    || c == '\U{A0}' || c == '\U{FEFF}'
  }

  function TrimStart(s: string): string {
    if |s| > 0 && IsSpace(s[0]) then TrimStart(s[1..]) else s
  }

  /** The number a digit run starts `s` with, if any. */
  function LeadingNumber(s: string): Option<nat> {
    var k := DigitRun(s);
    if k == 0 then None else Some(DigitsValue(s[..k]))
  }

  predicate IsHexDigit(c: char) {
    IsDigit(c) || 'a' <= c <= 'f' || 'A' <= c <= 'F'
  }

  predicate AllHexDigits(s: string) {
    forall i :: 0 <= i < |s| ==> IsHexDigit(s[i])
  }

  function HexDigitValue(c: char): (v: nat)
    requires IsHexDigit(c)
    ensures v < 16
  {
    if IsDigit(c) then DigitValue(c)
    else if 'a' <= c <= 'f' then c as int - 'a' as int + 10
    else c as int - 'A' as int + 10
  }

  /** The value of a run of hexadecimal digits, most significant first. */
  function HexValue(ds: string): nat
    requires AllHexDigits(ds)
    decreases |ds|
  {
    if |ds| == 0 then 0 else HexValue(ds[..|ds| - 1]) * 16 + HexDigitValue(ds[|ds| - 1])
  }

  /** The length of the run of hexadecimal digits that `s` starts with. */
  function HexRun(s: string): (k: nat)
    ensures k <= |s| && AllHexDigits(s[..k])
    ensures k < |s| ==> !IsHexDigit(s[k])
  {
    if |s| == 0 || !IsHexDigit(s[0]) then 0
    else
      var k := 1 + HexRun(s[1..]);
      assert s[..k] == [s[0]] + s[1..][..k - 1];
      k
  }

  /** The number a hexadecimal digit run starts `s` with, if any. */
  function LeadingHexNumber(s: string): Option<nat> {
    var k := HexRun(s);
    if k == 0 then None else Some(HexValue(s[..k]))
  }

  /** `0x` or `0X`, which switches `parseInt` without a radix to base 16. */
  predicate HexPrefixed(u: string) {
    |u| >= 2 && u[0] == '0' && (u[1] == 'x' || u[1] == 'X')
  }

  /** The magnitude `parseInt` reads after the sign: the hexadecimal run after
      a `0x` prefix, otherwise the decimal run. */
  function UnsignedValue(u: string): Option<nat> {
    if HexPrefixed(u) then LeadingHexNumber(u[2..]) else LeadingNumber(u)
  }

  /** `parseInt(s)` with no radix: skip leading white space, take an optional
      sign, then a `0x`/`0X` prefix and the longest run of hexadecimal digits,
      or else the longest run of decimal digits; `None` (NaN) when that run is
      empty. */
  function ParseInt(s: string): (r: Option<int>)
    ensures |TrimStart(s)| == 0 ==> r.None?
    ensures r.Some? && r.value < 0 ==> TrimStart(s)[0] == '-'
    ensures var t := TrimStart(s); |t| > 0 && IsDigit(t[0]) && !HexPrefixed(t) ==> r.Some?
  {
    var t := TrimStart(s);
    if |t| > 0 && t[0] == '-' then
      match UnsignedValue(t[1..])
      case Some(n) => Some(0 - n)
      case None => None
    else if |t| > 0 && t[0] == '+' then
      match UnsignedValue(t[1..])
      case Some(n) => Some(n as int)
      case None => None
    else
      match UnsignedValue(t)
      case Some(n) => Some(n as int)
      case None => None
  }

  lemma {:induction false} DigitsValueOfDigits(n: nat)
    ensures DigitsValue(Digits(n)) == n
    decreases n
  {
    if n >= 10 {
      DigitsValueOfDigits(n / 10);
      var ds := Digits(n);
      assert ds[..|ds| - 1] == Digits(n / 10);
    }
  }

  lemma {:induction false} DigitRunStops(ds: string, rest: string)
    requires AllDigits(ds)
    requires |rest| == 0 || !IsDigit(rest[0])
    ensures DigitRun(ds + rest) == |ds|
    decreases |ds|
  {
    if |ds| > 0 {
      assert (ds + rest)[1..] == ds[1..] + rest;
      DigitRunStops(ds[1..], rest);
    }
  }

  /** `parseInt` reads back the numeral of an integer, and stops at the first
      character that cannot continue it. The numeral `0` followed by `x` or `X`
      is excluded: there `parseInt` reads a hexadecimal prefix instead. */
  lemma ParseIntOfDecimal(n: int, rest: string)
    requires |rest| == 0 || !IsDigit(rest[0])
    requires !(n == 0 && |rest| > 0 && (rest[0] == 'x' || rest[0] == 'X'))
    ensures ParseInt(DecimalText(n) + rest) == Some(n)
  {
    var m: nat := if n < 0 then -n else n;
    var ds := Digits(m);
    DigitRunStops(ds, rest);
    DigitsValueOfDigits(m);
    var u := ds + rest;
    assert u[..|ds|] == ds;
    assert !HexPrefixed(u) by {
      if |ds| >= 2 {
        assert u[1] == ds[1];
      }
    }
    if n < 0 {
      var s := "-" + u;
      assert DecimalText(n) + rest == s;
      assert TrimStart(s) == s;
      assert s[1..] == u;
    } else {
      assert DecimalText(n) + rest == u;
      assert TrimStart(u) == u by {
        assert IsDigit(u[0]);
      }
    }
  }

  lemma {:induction false} HexRunStops(ds: string, rest: string)
    requires AllHexDigits(ds)
    requires |rest| == 0 || !IsHexDigit(rest[0])
    ensures HexRun(ds + rest) == |ds|
    decreases |ds|
  {
    if |ds| > 0 {
      assert (ds + rest)[1..] == ds[1..] + rest;
      HexRunStops(ds[1..], rest);
    }
  }

  /** A text that starts with neither white space nor a sign is read as an
      unsigned magnitude. */
  lemma ParseIntUnsigned(s: string)
    requires |s| > 0 && !IsSpace(s[0]) && s[0] != '-' && s[0] != '+'
    ensures ParseInt(s) == if UnsignedValue(s).Some? then Some(UnsignedValue(s).value as int) else None
  {
    assert TrimStart(s) == s;
  }

  lemma LeadingHexOfRun(ds: string, rest: string)
    requires AllHexDigits(ds)
    requires |rest| == 0 || !IsHexDigit(rest[0])
    ensures LeadingHexNumber(ds + rest) == if |ds| == 0 then None else Some(HexValue(ds))
  {
    HexRunStops(ds, rest);
    assert (ds + rest)[..|ds|] == ds;
  }

  /** After `0x` or `0X`, `parseInt` reads the hexadecimal digits that follow,
      and gives NaN when there are none. */
  lemma ParseIntOfHex(x: char, ds: string, rest: string)
    requires x == 'x' || x == 'X'
    requires AllHexDigits(ds)
    requires |rest| == 0 || !IsHexDigit(rest[0])
    ensures ParseInt(['0', x] + (ds + rest)) == if |ds| == 0 then None else Some(HexValue(ds) as int)
  {
    var s := ['0', x] + (ds + rest);
    assert s[0] == '0';
    ParseIntUnsigned(s);
    HexMagnitude(x, ds, rest);
  }

  lemma HexMagnitude(x: char, ds: string, rest: string)
    requires x == 'x' || x == 'X'
    requires AllHexDigits(ds)
    requires |rest| == 0 || !IsHexDigit(rest[0])
    ensures UnsignedValue(['0', x] + (ds + rest)) == if |ds| == 0 then None else Some(HexValue(ds))
  {
    var s := ['0', x] + (ds + rest);
    var u := ds + rest;
    assert s[2..] == u;
    assert HexPrefixed(s);
    LeadingHexOfRun(ds, rest);
  }

  /** Without a radix, a leading `0x` is read as hexadecimal. */
  lemma HexPrefixExamples()
    ensures ParseInt("0x10") == Some(16)
    ensures ParseInt("0x") == None
  {
    ParseIntOfHex('x', "10", "");
    assert ['0', 'x'] + ("10" + "") == "0x10";
    assert HexValue("10") == 16 by {
      assert "10"[..1] == "1";
    }
    ParseIntOfHex('x', "", "");
    assert ['0', 'x'] + ("" + "") == "0x";
  }
}

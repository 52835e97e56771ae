/**
 * The JavaScript string built-ins that index.js relies on, stated over
 * Dafny strings: `indexOf` for one character, `split` and `join` on a
 * one-character separator, `trim` (and the whitespace class `\s` of the
 * regular expressions), and the decimal text of an integer as a template
 * literal writes it.
 */
module JsText {

  datatype Option<T> = None | Some(value: T)

  /** The characters `String.prototype.trim` removes and the regex class `\s` matches. */
  predicate IsSpace(c: char) {
    || c == '\t' || c == '\n' || c == '\U{000B}' || c == '\U{000C}' || c == '\r' || c == ' '
    || c == '\U{00A0}' || c == '\U{1680}' || ('\U{2000}' <= c <= '\U{200A}')
    || c == '\U{2028}' || c == '\U{2029}' || c == '\U{202F}' || c == '\U{205F}'
    || c == '\U{3000}' || c == '\U{FEFF}'
  }

  /** `s.indexOf(c)`: the position of the first `c` in `s`, if any. */
  function IndexOf(s: string, c: char): (r: Option<nat>)
    ensures r.None? <==> c !in s
    ensures r.Some? ==> r.value < |s| && s[r.value] == c && c !in s[..r.value]
  {
    if s == [] then None
    else if s[0] == c then Some(0)
    else match IndexOf(s[1..], c)
      case None => None
      case Some(i) =>
        assert s[1..][..i] == s[1..i + 1];
        Some(i + 1)
  }

  /** A string that starts with `p` has its first `c` where `p` has one. */
  lemma IndexOfPrefix(s: string, p: string, c: char, i: nat)
    requires p <= s && IndexOf(p, c) == Some(i)
    ensures IndexOf(s, c) == Some(i)
  {
    assert s[..i] == p[..i];
  }

  /** `s.split(sep)` for a one-character separator: never empty, and no part holds `sep`. */
  function Split(s: string, sep: char): (parts: seq<string>)
    ensures |parts| >= 1
    ensures forall k :: 0 <= k < |parts| ==> sep !in parts[k]
    decreases |s|
  {
    match IndexOf(s, sep)
    case None => [s]
    case Some(i) => [s[..i]] + Split(s[i + 1..], sep)
  }

  /** `parts.join(sep)` for a one-character separator. */
  function Join(parts: seq<string>, sep: char): string {
    if parts == [] then ""
    else if |parts| == 1 then parts[0]
    else parts[0] + [sep] + Join(parts[1..], sep)
  }

  /** Joining a part in front of a non-empty list adds one separator after it. */
  lemma JoinCons(first: string, rest: seq<string>, sep: char)
    requires rest != []
    ensures Join([first] + rest, sep) == first + [sep] + Join(rest, sep)
  {
    var ps := [first] + rest;
    assert ps[0] == first && ps[1..] == rest;
  }

  /** One step of `split`: the text before the first separator, then the split of the rest. */
  lemma SplitAt(s: string, sep: char, i: nat)
    requires IndexOf(s, sep) == Some(i)
    ensures Split(s, sep) == [s[..i]] + Split(s[i + 1..], sep)
  {
  }

  /** Joining what `split` produced gives the string back. */
  lemma {:induction false} JoinSplit(s: string, sep: char)
    ensures Join(Split(s, sep), sep) == s
    decreases |s|
  {
    var found := IndexOf(s, sep);
    if found.Some? {
      var i := found.value;
      var rest := s[i + 1..];
      var tail := Split(rest, sep);
      SplitAt(s, sep, i);
      JoinCons(s[..i], tail, sep);
      JoinSplit(rest, sep);
      calc {
        Join(Split(s, sep), sep);
        Join([s[..i]] + tail, sep);
        s[..i] + [sep] + Join(tail, sep);
        s[..i] + [sep] + rest;
        { assert s[i] == sep; assert s == s[..i] + [s[i]] + s[i + 1..]; }
        s;
      }
    }
  }

  /** The first part of a split runs from the start up to the first separator, or to the end. */
  lemma FirstSplitPart(s: string, sep: char)
    ensures var first := Split(s, sep)[0];
      first <= s && sep !in first && (|first| == |s| || s[|first|] == sep)
  {
    match IndexOf(s, sep)
    case None =>
    case Some(i) =>
      SplitAt(s, sep, i);
  }

  /** Splitting a string whose first part holds no separator peels that part off. */
  lemma SplitCons(a: string, sep: char, rest: string)
    requires sep !in a
    ensures Split(a + [sep] + rest, sep) == [a] + Split(rest, sep)
  {
    var s := a + [sep] + rest;
    assert s[..|a|] == a;
    assert s[|a|] == sep;
    assert IndexOf(s, sep) == Some(|a|);
    assert s[|a| + 1..] == rest;
  }

  /** Splitting what `join` produced gives the parts back, when no part holds the separator. */
  lemma {:induction false} SplitJoin(parts: seq<string>, sep: char)
    requires |parts| >= 1
    requires forall k :: 0 <= k < |parts| ==> sep !in parts[k]
    ensures Split(Join(parts, sep), sep) == parts
  {
    if |parts| == 1 {
      assert IndexOf(parts[0], sep) == None;
    } else {
      SplitJoin(parts[1..], sep);
      SplitCons(parts[0], sep, Join(parts[1..], sep));
    }
  }

  /** Appending one part to a join adds one separator and that part at the end. */
  lemma {:induction false} JoinSnoc(parts: seq<string>, last: string, sep: char)
    ensures Join(parts + [last], sep) == if parts == [] then last else Join(parts, sep) + [sep] + last
  {
    if |parts| > 1 {
      JoinSnoc(parts[1..], last, sep);
      assert (parts + [last])[1..] == parts[1..] + [last];
    } else if |parts| == 1 {
      assert (parts + [last])[1..] == [last];
    }
  }

  /** Joined parts that hold no separator can be split off the front of a longer join. */
  lemma {:induction false} SplitJoinPrefix(parts: seq<string>, tail: string, sep: char)
    requires forall k :: 0 <= k < |parts| ==> sep !in parts[k]
    ensures Split(Join(parts + [tail], sep), sep) == parts + Split(tail, sep)
  {
    if parts != [] {
      var first, others := parts[0], parts[1..];
      var rest := others + [tail];
      var joined := Join(rest, sep);
      var after := Split(tail, sep);
      assert parts + [tail] == [first] + rest;
      calc {
        Split(Join(parts + [tail], sep), sep);
        { JoinCons(first, rest, sep); }
        Split(first + [sep] + joined, sep);
        { SplitCons(first, sep, joined); }
        [first] + Split(joined, sep);
        { SplitJoinPrefix(others, tail, sep); }
        [first] + (others + after);
        { assert [first] + others == parts; }
        parts + after;
      }
    }
  }

  /** `s.trimStart()`: what is left is a suffix of `s`, everything dropped is whitespace. */
  function TrimStart(s: string): (r: string)
    ensures |r| <= |s| && r == s[|s| - |r|..]
    ensures forall k :: 0 <= k < |s| - |r| ==> IsSpace(s[k])
    ensures r == [] || !IsSpace(r[0])
  {
    if s != [] && IsSpace(s[0]) then TrimStart(s[1..]) else s
  }

  /** `s.trimEnd()`: what is left is a prefix of `s`, everything dropped is whitespace. */
  function TrimEnd(s: string): (r: string)
    ensures |r| <= |s| && r == s[..|r|]
    ensures forall k :: |r| <= k < |s| ==> IsSpace(s[k])
    ensures r == [] || !IsSpace(r[|r| - 1])
  {
    if s != [] && IsSpace(s[|s| - 1]) then TrimEnd(s[..|s| - 1]) else s
  }

  /** `s.trim()`: a piece of `s` that neither starts nor ends with whitespace. */
  function Trim(s: string): (r: string)
    ensures |r| <= |s|
    ensures r == [] || (!IsSpace(r[0]) && !IsSpace(r[|r| - 1]))
  {
    TrimEnd(TrimStart(s))
  }

  function DigitChar(d: nat): (c: char)
    requires d < 10
    ensures '0' <= c <= '9'
  {
    ('0' as int + d) as char
  }

  function DigitValue(c: char): nat
    requires '0' <= c <= '9'
  {
    (c as int - '0' as int) as nat
  }

  predicate IsDigits(s: string) {
    forall k :: 0 <= k < |s| ==> '0' <= s[k] <= '9'
  }

  /** The decimal text of a natural number, as `String(n)` writes it. */
  function NatToDecimal(n: nat): (s: string)
    ensures |s| >= 1 && IsDigits(s)
    ensures s[0] == '0' ==> n == 0 && s == "0"
  {
    if n < 10 then [DigitChar(n)] else NatToDecimal(n / 10) + [DigitChar(n % 10)]
  }

  /** The number a string of decimal digits denotes. */
  function DecimalValue(s: string): nat
    requires IsDigits(s)
  {
    if s == [] then 0 else 10 * DecimalValue(s[..|s| - 1]) + DigitValue(s[|s| - 1])
  }

  /** Reading back the decimal text gives the number. */
  lemma {:induction false} DecimalRoundTrip(n: nat)
    ensures DecimalValue(NatToDecimal(n)) == n
  {
    if n >= 10 {
      DecimalRoundTrip(n / 10);
      var s := NatToDecimal(n);
      assert s[..|s| - 1] == NatToDecimal(n / 10);
    }
  }

  /** The decimal text of an integer, with a leading `-` when negative. */
  function IntToDecimal(n: int): (s: string)
    ensures n >= 0 ==> s == NatToDecimal(n)
    ensures n < 0 ==> |s| >= 2 && s[0] == '-' && s[1..] == NatToDecimal(-n)
  {
    if n < 0 then "-" + NatToDecimal(-n) else NatToDecimal(n)
  }
}

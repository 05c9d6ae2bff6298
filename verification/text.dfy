/** The JavaScript string operations the source uses, on `seq<char>`:
    `String(n)` for integers, `padStart`, `Array.prototype.join`,
    `includes`, `toLowerCase` and `trim`. */
module Text {

  predicate IsDigit(c: char) {
    '0' <= c <= '9'
  }

  function DigitChar(d: nat): (c: char)
    requires d < 10
    ensures IsDigit(c)
    ensures c as int - '0' as int == d
  {
    ('0' as int + d) as char
  }

  /** The number a string of decimal digits denotes. */
  function DigitsValue(s: string): nat
    requires forall i :: 0 <= i < |s| ==> IsDigit(s[i])
  {
    if s == [] then 0
    else
      assert IsDigit(s[|s| - 1]);
      DigitsValue(s[..|s| - 1]) * 10 + (s[|s| - 1] as int - '0' as int)
  }

  /** `String(n)` for a non-negative integer: its decimal digits, without
      leading zeros. Reading the digits back gives `n`. */
  function NatToString(n: nat): (s: string)
    ensures |s| >= 1
    ensures forall i :: 0 <= i < |s| ==> IsDigit(s[i])
    ensures |s| == 1 || s[0] != '0'
    ensures DigitsValue(s) == n
  {
    if n < 10 then [DigitChar(n)]
    else
      var front := NatToString(n / 10);
      var s := front + [DigitChar(n % 10)];
      assert s[..|s| - 1] == front;
      s
  }

  /** `String(i)` for any integer: a minus sign before the digits of a negative one. */
  function IntToString(i: int): (s: string)
    ensures i >= 0 ==> s == NatToString(i)
    ensures i < 0 ==> s == "-" + NatToString(-i)
  {
    if i < 0 then "-" + NatToString(-i) else NatToString(i)
  }

  /** `s.padStart(width, fill)` with a one-character fill. */
  function PadStart(s: string, width: nat, fill: char): (r: string)
    ensures |s| >= width ==> r == s
    ensures |s| < width ==> |r| == width
    ensures r[|r| - |s|..] == s
    ensures forall i :: 0 <= i < |r| - |s| ==> r[i] == fill
  {
    if |s| >= width then s else seq(width - |s|, _ => fill) + s
  }

  /** `parts.join(sep)`. */
  function Join(parts: seq<string>, sep: string): (r: string)
  {
    if |parts| == 0 then ""
    else if |parts| == 1 then parts[0]
    else Join(parts[..|parts| - 1], sep) + sep + parts[|parts| - 1]
  }

  /** Joining a list with a first element is that element, the separator and
      the join of the rest. */
  lemma {:induction false} JoinCons(p: string, ps: seq<string>, sep: string)
    requires ps != []
    ensures Join([p] + ps, sep) == p + sep + Join(ps, sep)
    decreases |ps|
  {
    var all := [p] + ps;
    if |ps| == 1 {
      assert all[..1] == [p];
    } else {
      assert all[..|all| - 1] == [p] + ps[..|ps| - 1];
      JoinCons(p, ps[..|ps| - 1], sep);
    }
  }

  /** `s.indexOf(c)` for a character that occurs: its first position. */
  function IndexOf(s: string, c: char): (i: nat)
    requires c in s
    ensures i < |s| && s[i] == c && c !in s[..i]
  {
    if s[0] == c then 0
    else
      var j := IndexOf(s[1..], c);
      assert s[..j + 1] == [s[0]] + s[1..][..j];
      j + 1
  }

  /** `s.split(c)`: the pieces between the occurrences of `c`. */
  function SplitOn(s: string, c: char): (parts: seq<string>)
    ensures |parts| >= 1
    ensures forall k :: 0 <= k < |parts| ==> c !in parts[k]
    decreases |s|
  {
    if c !in s then [s]
    else
      var i := IndexOf(s, c);
      [s[..i]] + SplitOn(s[i + 1..], c)
  }

  /** Splitting undoes joining when no part contains the separator. */
  lemma {:induction false} SplitJoin(parts: seq<string>, c: char)
    requires |parts| >= 1
    requires forall k :: 0 <= k < |parts| ==> c !in parts[k]
    ensures SplitOn(Join(parts, [c]), c) == parts
    decreases |parts|
  {
    if |parts| == 1 {
      assert c !in parts[0];
    } else {
      var p := parts[0];
      var ps := parts[1..];
      assert parts == [p] + ps;
      JoinCons(p, ps, [c]);
      var s := Join(parts, [c]);
      assert s == p + [c] + Join(ps, [c]);
      assert s[|p|] == c;
      assert s[..|p|] == p;
      assert IndexOf(s, c) == |p|;
      assert s[|p| + 1..] == Join(ps, [c]);
      SplitJoin(ps, c);
    }
  }

  /** A join of pieces free of `c`, with a separator free of `c`, is free of `c`. */
  lemma {:induction false} JoinFree(parts: seq<string>, sep: string, c: char)
    requires c !in sep
    requires forall k :: 0 <= k < |parts| ==> c !in parts[k]
    ensures c !in Join(parts, sep)
    decreases |parts|
  {
    if |parts| > 1 {
      JoinFree(parts[..|parts| - 1], sep, c);
    }
  }

  /** The join of a list with a first element starts with that element and
      the separator. */
  lemma {:induction false} JoinConsPrefix(p: string, ps: seq<string>, sep: string)
    requires ps != []
    ensures p + sep <= Join([p] + ps, sep)
  {
    JoinCons(p, ps, sep);
  }

  /** Joining a list with a last element is the join of the others, the
      separator and that element. */
  lemma {:induction false} JoinSnoc(ps: seq<string>, p: string, sep: string)
    requires ps != []
    ensures Join(ps + [p], sep) == Join(ps, sep) + sep + p
  {
    assert (ps + [p])[..|ps|] == ps;
  }

  /** `hay.includes(needle)`: `needle` is a prefix of some suffix of `hay`,
      i.e. some contiguous part of `hay` equals `needle`. */
  predicate Includes(hay: string, needle: string) {
    exists i :: 0 <= i <= |hay| && needle <= hay[i..]
  }

  /** One character of `toLowerCase`, for the Latin letters. */
  function LowerChar(c: char): char {
    if 'A' <= c <= 'Z' then (c as int + 32) as char else c
  }

  /** `s.toLowerCase()`, restricted to the Latin letters A-Z. */
  function ToLower(s: string): (r: string)
    ensures |r| == |s|
    ensures forall i :: 0 <= i < |s| ==> r[i] == LowerChar(s[i])
  {
    seq(|s|, i requires 0 <= i < |s| => LowerChar(s[i]))
  }

  /** Lower-casing twice is lower-casing once. */
  lemma {:induction false} ToLowerIdempotent(s: string)
    ensures ToLower(ToLower(s)) == ToLower(s)
  {
  }

  /** The white-space and line-terminator characters that `trim` removes. */
  predicate IsSpace(c: char) {
    c == ' ' || c == '\t' || c == '\n' || c == '\r' || c == '\U{B}' || c == '\U{C}'
    || c == '\U{A0}' || c == '\U{1680}' || ('\U{2000}' <= c <= '\U{200A}')
    || c == '\U{2028}' || c == '\U{2029}' || c == '\U{202F}' || c == '\U{205F}'
    || c == '\U{3000}' || c == '\U{FEFF}'
  }

  /** The first position at or after `i` that does not hold white space. */
  function SkipSpaces(s: string, i: nat): (j: nat)
    requires i <= |s|
    ensures i <= j <= |s|
    ensures forall k :: i <= k < j ==> IsSpace(s[k])
    ensures j == |s| || !IsSpace(s[j])
    decreases |s| - i
  {
    if i < |s| && IsSpace(s[i]) then SkipSpaces(s, i + 1) else i
  }

  /** The end of `s[lo..j]` once its trailing white space is dropped. */
  function BackSpaces(s: string, j: nat, lo: nat): (i: nat)
    requires lo <= j <= |s|
    ensures lo <= i <= j
    ensures forall k :: i <= k < j ==> IsSpace(s[k])
    ensures i == lo || !IsSpace(s[i - 1])
    decreases j
  {
    if j > lo && IsSpace(s[j - 1]) then BackSpaces(s, j - 1, lo) else j
  }

  /** `s.trim()`: white space is removed at both ends and nothing else. The
      result is the part of `s` that starts at its first character that is
      not white space, everything cut away after it is white space, and the
      result neither starts nor ends with white space. */
  function Trim(s: string): (r: string)
    ensures var a := SkipSpaces(s, 0);
      && a + |r| <= |s|
      && r == s[a..a + |r|]
      && (forall k :: a + |r| <= k < |s| ==> IsSpace(s[k]))
    ensures r == [] || (!IsSpace(r[0]) && !IsSpace(r[|r| - 1]))
  {
    var a := SkipSpaces(s, 0);
    var b := BackSpaces(s, |s|, a);
    assert a < |s| ==> a < b;
    s[a..b]
  }

  /** Trimming a trimmed string changes nothing. */
  lemma {:induction false} TrimIdempotent(s: string)
    ensures Trim(Trim(s)) == Trim(s)
  {
    var r := Trim(s);
    assert SkipSpaces(r, 0) == 0;
    assert BackSpaces(r, |r|, 0) == |r|;
  }
}

/** The JavaScript built-ins the shell relies on, with the semantics of the
    ECMAScript standard for the cases the shell can reach: `Array.prototype.slice`
    (negative indices count from the end), `String.prototype.substring`, `trim`,
    `toLowerCase`, `parseInt(s, 10)`, the decimal rendering of an integer,
    `Array.prototype.join`, and the truthiness of optional strings. */
module Js {

  datatype Option<+T> = None | Some(value: T)

  function Min(a: int, b: int): int { if a <= b then a else b }
  function Max(a: int, b: int): int { if a >= b then a else b }

  // ---------------------------------------------------------------- truthiness

  /** `undefined`, `null` and the empty string are falsy; every other string is truthy. */
  predicate Truthy(o: Option<string>) { o.Some? && o.value != "" }

  /** `o || fallback` for an optional string. */
  function OrDefault(o: Option<string>, fallback: string): (r: string)
    ensures Truthy(o) ==> r == o.value
    ensures !Truthy(o) ==> r == fallback
  {
    if Truthy(o) then o.value else fallback
  }

  /** `s || fallback` for a string that is never undefined. */
  function Or(s: string, fallback: string): string {
    if s != "" then s else fallback
  }

  // ---------------------------------------------------------------- slice

  /** How `slice` turns one of its arguments into a position in `0..len`:
      a negative index counts back from the end, and both ends are clamped. */
  function RelativeIndex(k: int, len: nat): (r: nat)
    ensures r <= len
    ensures 0 <= k <= len ==> r == k
    ensures k > len ==> r == len
    ensures k < 0 ==> r == Max(len + k, 0)
  {
    if k < 0 then (if len + k < 0 then 0 else len + k)
    else if k > len then len
    else k
  }

  /** `s.slice(start, end)`. */
  function Slice<T>(s: seq<T>, start: int, end: int): seq<T> {
    var from, to := RelativeIndex(start, |s|), RelativeIndex(end, |s|);
    if from < to then s[from..to] else []
  }

  /** `s.slice(0, n)` keeps the first `n` elements when `n` is not negative,
      and drops the last `-n` elements when it is. */
  lemma SliceFromStart<T>(s: seq<T>, n: int)
    ensures 0 <= n ==> Slice(s, 0, n) == s[..Min(n, |s|)]
    ensures n < 0 ==> Slice(s, 0, n) == s[..Max(|s| + n, 0)]
    ensures |Slice(s, 0, n)| == if 0 <= n then Min(n, |s|) else Max(|s| + n, 0)
  {
  }

  // ---------------------------------------------------------------- substring

  /** `s.substring(start, end)`: both ends clamped to `0..|s|`, swapped when reversed. */
  function Substring(s: string, start: int, end: int): string {
    var a := if start < 0 then 0 else if start > |s| then |s| else start;
    var b := if end < 0 then 0 else if end > |s| then |s| else end;
    if a <= b then s[a..b] else s[b..a]
  }

  /** `s.substring(0, n)` is the prefix of length `min(n, |s|)`. */
  lemma SubstringPrefix(s: string, n: nat)
    ensures Substring(s, 0, n) == s[..Min(n, |s|)]
    ensures |Substring(s, 0, n)| <= n
  {
  }

  // ---------------------------------------------------------------- trim

  /** The characters `trim` and `parseInt` skip: WhiteSpace and LineTerminator of ECMAScript. */
  predicate IsWhiteSpace(c: char) {
    c == ' ' || c == '\t' || c == '\n' || c == '\r' || c == '\U{000B}' || c == '\U{000C}'
    || c == '\U{00A0}' || c == '\U{1680}' || ('\U{2000}' <= c <= '\U{200A}')
    || c == '\U{2028}' || c == '\U{2029}' || c == '\U{202F}' || c == '\U{205F}'
    || c == '\U{3000}' || c == '\U{FEFF}'
  }

  /** Removes the leading white space: the result is the suffix of `s` that
      starts at its first non-white-space character. */
  function TrimStart(s: string): (r: string)
    ensures |r| <= |s| && r == s[|s| - |r|..]
    ensures forall i :: 0 <= i < |s| - |r| ==> IsWhiteSpace(s[i])
    ensures r == [] || !IsWhiteSpace(r[0])
  {
    if s != [] && IsWhiteSpace(s[0]) then
      var r := TrimStart(s[1..]);
      DropAfterTail(s, |s| - |r|);
      r
    else s
  }

  /** Removes the trailing white space: the result is the prefix of `s` that
      ends at its last non-white-space character. */
  function TrimEnd(s: string): (r: string)
    ensures |r| <= |s| && r == s[..|r|]
    ensures forall i :: |r| <= i < |s| ==> IsWhiteSpace(s[i])
    ensures r == [] || !IsWhiteSpace(r[|r| - 1])
  {
    if s != [] && IsWhiteSpace(s[|s| - 1]) then
      var r := TrimEnd(s[..|s| - 1]);
      TakeOfFront(s, |r|);
      r
    else s
  }

  /** Dropping from the tail of `s` is dropping one more from `s`. */
  lemma DropAfterTail<T>(s: seq<T>, k: nat)
    requires 1 <= k <= |s|
    ensures s[1..][k - 1..] == s[k..]
  {
  }

  /** Taking from the front of `s` is taking from `s`. */
  lemma TakeOfFront<T>(s: seq<T>, k: nat)
    requires k < |s|
    ensures s[..|s| - 1][..k] == s[..k]
  {
  }

  /** `s.trim()`. */
  function Trim(s: string): string {
    TrimEnd(TrimStart(s))
  }

  /** The trimmed string is a contiguous piece of `s`, everything cut off is
      white space, and it neither starts nor ends with white space. */
  lemma TrimCharacterised(s: string)
    ensures var lo := |s| - |TrimStart(s)|;
      lo + |Trim(s)| <= |s| && Trim(s) == s[lo..lo + |Trim(s)|]
      && (forall i :: 0 <= i < lo ==> IsWhiteSpace(s[i]))
      && (forall i :: lo + |Trim(s)| <= i < |s| ==> IsWhiteSpace(s[i]))
    ensures Trim(s) == [] || (!IsWhiteSpace(Trim(s)[0]) && !IsWhiteSpace(Trim(s)[|Trim(s)| - 1]))
  {
    TrimIsSlice(s);
    TrimEdges(s);
  }

  lemma TrimIsSlice(s: string)
    ensures var lo := |s| - |TrimStart(s)|;
      lo + |Trim(s)| <= |s| && Trim(s) == s[lo..lo + |Trim(s)|]
      && (forall i :: lo + |Trim(s)| <= i < |s| ==> IsWhiteSpace(s[i]))
  {
    var t := TrimStart(s);
    var lo := |s| - |t|;
    var m := |TrimEnd(t)|;
    SliceOfSlice(s, lo, m);
    TrimTrailing(s, t, lo, m);
  }

  /** What `TrimEnd` cut off `s[lo..]` is white space. */
  lemma TrimTrailing(s: string, t: string, lo: nat, m: nat)
    requires lo <= |s| && t == s[lo..] && m <= |t|
    requires forall i :: m <= i < |t| ==> IsWhiteSpace(t[i])
    ensures forall i :: lo + m <= i < |s| ==> IsWhiteSpace(s[i])
  {
    forall i | lo + m <= i < |s| ensures IsWhiteSpace(s[i]) {
      assert s[i] == t[i - lo];
    }
  }

  lemma TrimEdges(s: string)
    ensures Trim(s) == [] || (!IsWhiteSpace(Trim(s)[0]) && !IsWhiteSpace(Trim(s)[|Trim(s)| - 1]))
  {
    var t := TrimStart(s);
    var r := TrimEnd(t);
    if r != [] {
      assert r[0] == t[0];
    }
  }

  /** A string that neither starts nor ends with white space is its own trim. */
  lemma TrimOfTrimmed(s: string)
    requires s == [] || (!IsWhiteSpace(s[0]) && !IsWhiteSpace(s[|s| - 1]))
    ensures Trim(s) == s
  {
  }

  // ---------------------------------------------------------------- case

  /** `toLowerCase` on one character, for the ASCII letters. */
  function LowerChar(c: char): char {
    if 'A' <= c <= 'Z' then (c as int + 32) as char else c
  }

  /** `s.toLowerCase()`, for ASCII letters. */
  function ToLower(s: string): (r: string)
    ensures |r| == |s|
    ensures forall i :: 0 <= i < |s| ==> r[i] == LowerChar(s[i])
  {
    seq(|s|, i requires 0 <= i < |s| => LowerChar(s[i]))
  }

  // ---------------------------------------------------------------- numbers

  predicate IsDigit(c: char) { '0' <= c <= '9' }

  function DigitChar(d: nat): (c: char)
    requires d < 10
    ensures IsDigit(c)
  {
    (48 + d) as char
  }

  function DigitValue(c: char): (d: nat)
    requires IsDigit(c)
    ensures d < 10 && DigitChar(d) == c
  {
    c as int - 48
  }

  predicate AllDigits(s: string) { forall i :: 0 <= i < |s| ==> IsDigit(s[i]) }

  /** The decimal rendering of a natural number, most significant digit first. */
  function NatToString(n: nat): (r: string)
    ensures |r| >= 1 && AllDigits(r)
    decreases n
  {
    if n < 10 then [DigitChar(n)] else NatToString(n / 10) + [DigitChar(n % 10)]
  }

  /** `String(n)` for an integer `n`. */
  function IntToString(n: int): (r: string)
    ensures r != []
  {
    if n < 0 then "-" + NatToString(-n) else NatToString(n)
  }

  /** The value of a string of decimal digits. */
  function DigitsValue(s: string): nat
    requires AllDigits(s)
  {
    if s == [] then 0 else 10 * DigitsValue(s[..|s| - 1]) + DigitValue(s[|s| - 1])
  }

  /** The length of the longest prefix of `s` made of decimal digits. */
  function DigitPrefixLength(s: string): (k: nat)
    ensures k <= |s| && AllDigits(s[..k])
    ensures k == |s| || !IsDigit(s[k])
  {
    if s == [] || !IsDigit(s[0]) then 0
    else
      var k := 1 + DigitPrefixLength(s[1..]);
      assert s[..k] == [s[0]] + s[1..][..k - 1];
      k
  }

  /** `parseInt(s, 10)`: skips leading white space, takes one optional sign,
      then the longest run of decimal digits; `None` stands for `NaN`
      (no digit there). */
  function ParseInt(s: string): Option<int> {
    var t := TrimStart(s);
    var negative := |t| > 0 && t[0] == '-';
    var u := if |t| > 0 && (t[0] == '-' || t[0] == '+') then t[1..] else t;
    var k := DigitPrefixLength(u);
    var magnitude: int := DigitsValue(u[..k]);
    if k == 0 then None
    else if negative then Some(-magnitude)
    else Some(magnitude)
  }

  lemma {:induction false} DigitsValueOfNat(n: nat)
    ensures DigitsValue(NatToString(n)) == n
    decreases n
  {
    if n >= 10 {
      var r := NatToString(n);
      assert r[..|r| - 1] == NatToString(n / 10);
      DigitsValueOfNat(n / 10);
    }
  }

  /** `parseInt(String(n), 10) == n`: the decimal rendering parses back. */
  lemma ParseIntOfIntToString(n: int)
    ensures ParseInt(IntToString(n)) == Some(n)
  {
    var s := IntToString(n);
    var digits := if n < 0 then NatToString(-n) else NatToString(n);
    assert TrimStart(s) == s;
    var u := if n < 0 then s[1..] else s;
    assert u == digits;
    assert AllDigits(u);
    assert u[..|u|] == u;
    DigitsValueOfNat(if n < 0 then -n else n);
  }

  // ---------------------------------------------------------------- joining

  /** `ss.join(sep)`. */
  function Join(ss: seq<string>, sep: string): string {
    if |ss| == 0 then ""
    else if |ss| == 1 then ss[0]
    else Join(ss[..|ss| - 1], sep) + sep + ss[|ss| - 1]
  }

  /** Appending a segment to a non-empty list appends the separator and the segment to the joined string. */
  lemma JoinSnoc(ss: seq<string>, sep: string, x: string)
    ensures Join(ss + [x], sep) == if ss == [] then x else Join(ss, sep) + sep + x
  {
    if ss != [] {
      assert (ss + [x])[..|ss|] == ss;
    }
  }

  /** The concatenation of a list of strings, in order (`"" + s0 + s1 + …`). */
  function Concat(ss: seq<string>): string {
    if ss == [] then "" else Concat(ss[..|ss| - 1]) + ss[|ss| - 1]
  }

  lemma {:induction false} ConcatAppend(a: seq<string>, b: seq<string>)
    ensures Concat(a + b) == Concat(a) + Concat(b)
    decreases |b|
  {
    if b == [] {
      AppendNothing(a, b);
    } else {
      var b' := b[..|b| - 1];
      DropLastOfAppend(a, b);
      ConcatAppend(a, b');
      Assoc3(Concat(a), Concat(b'), b[|b| - 1]);
    }
  }

  /** Dropping the last element of `a + b`, for a non-empty `b`. */
  lemma DropLastOfAppend<T>(a: seq<T>, b: seq<T>)
    requires b != []
    ensures (a + b)[..|a + b| - 1] == a + b[..|b| - 1]
    ensures (a + b)[|a + b| - 1] == b[|b| - 1]
  {
  }

  // ---------------------------------------------------------------- searching

  /** `s.includes(sub)`. */
  ghost predicate Contains(s: string, sub: string) {
    exists i :: OccursAt(s, sub, i)
  }

  /** `sub` occurs in `s` starting at position `i`. */
  predicate OccursAt(s: string, sub: string, i: int) {
    0 <= i <= |s| - |sub| && s[i..i + |sub|] == sub
  }

  /** Every element of a list occurs in its concatenation. */
  lemma ConcatContains(ss: seq<string>, k: nat)
    requires k < |ss|
    ensures Contains(Concat(ss), ss[k])
  {
    ConcatSplit(ss, k);
    ContainsMiddle(Concat(ss[..k]), ss[k], Concat(ss[k + 1..]));
  }

  /** The concatenation around element `k`. */
  lemma ConcatSplit(ss: seq<string>, k: nat)
    requires k < |ss|
    ensures Concat(ss) == Concat(ss[..k]) + ss[k] + Concat(ss[k + 1..])
  {
    var pre, x, post := ss[..k], ss[k], ss[k + 1..];
    SplitAt(ss, k);
    ConcatAppend(pre + [x], post);
    ConcatAppend(pre, [x]);
    ConcatSingle(x);
  }

  lemma ConcatSingle(x: string)
    ensures Concat([x]) == x
  {
    assert [x][..0] == [];
  }

  lemma ContainsTransitive(s: string, t: string, u: string)
    requires Contains(s, t) && Contains(t, u)
    ensures Contains(s, u)
  {
    var i :| OccursAt(s, t, i);
    var j :| OccursAt(t, u, j);
    forall k | 0 <= k < |u| ensures s[i + j + k] == u[k] {
      assert u[k] == t[j + k] == s[i + j + k];
    }
    assert s[i + j..i + j + |u|] == u;
    assert OccursAt(s, u, i + j);
  }

  /** A string occurs at the end of any concatenation that ends with it. */
  lemma ContainsEnd(s: string, t: string)
    ensures Contains(s + t, t)
  {
    assert (s + t)[|s|..|s| + |t|] == t;
    assert OccursAt(s + t, t, |s|);
  }

  /** Appending to a string keeps every occurrence in it. */
  lemma ContainsExtend(s: string, sub: string, t: string)
    requires Contains(s, sub)
    ensures Contains(s + t, sub)
  {
    var i :| OccursAt(s, sub, i);
    assert (s + t)[i..i + |sub|] == s[i..i + |sub|];
    assert OccursAt(s + t, sub, i);
  }

  /** Each of four concatenated strings occurs in the concatenation. */
  lemma PartsContain(a: string, b: string, c: string, d: string)
    ensures Contains(a + b + c + d, a) && Contains(a + b + c + d, b)
    ensures Contains(a + b + c + d, c) && Contains(a + b + c + d, d)
  {
    ContainsMiddle([], a, b + c + d);
    assert [] + a + (b + c + d) == a + b + c + d;
    ContainsMiddle(a, b, c + d);
    assert a + b + (c + d) == a + b + c + d;
    ContainsMiddle(a + b, c, d);
    ContainsMiddle(a + b + c, d, []);
    assert a + b + c + d + [] == a + b + c + d;
  }

  /** Regrouping a concatenation of three sequences. */
  lemma Assoc3<T>(a: seq<T>, b: seq<T>, c: seq<T>)
    ensures a + (b + c) == a + b + c
  {
  }

  lemma AppendEmpty<T>(a: seq<T>, b: seq<T>)
    requires a == []
    ensures a + b == b
  {
  }

  lemma AppendNothing<T>(a: seq<T>, b: seq<T>)
    requires b == []
    ensures a + b == a
  {
  }

  lemma TailOfAppend<T>(a: seq<T>, b: seq<T>)
    requires a != []
    ensures (a + b)[0] == a[0] && (a + b)[1..] == a[1..] + b
  {
  }

  lemma SliceOfSlice<T>(s: seq<T>, lo: nat, m: nat)
    requires lo + m <= |s|
    ensures s[lo..][..m] == s[lo..lo + m]
  {
  }

  /** A sequence around its element `k`. */
  lemma SplitAt<T>(s: seq<T>, k: nat)
    requires k < |s|
    ensures s == s[..k] + [s[k]] + s[k + 1..]
  {
  }

  /** Extending a prefix by one element. */
  lemma TakeSnoc<T>(s: seq<T>, i: nat)
    requires i < |s|
    ensures s[..i + 1] == s[..i] + [s[i]]
  {
  }

  /** Regrouping a concatenation of four sequences. */
  lemma Assoc4<T>(a: seq<T>, b: seq<T>, c: seq<T>, d: seq<T>)
    ensures a + (b + (c + d)) == a + b + c + d
    ensures (a + b) + (c + d) == a + b + c + d
    ensures a + ((b + c) + d) == a + b + c + d
  {
  }

  lemma ContainsMiddle(p: string, sub: string, q: string)
    ensures OccursAt(p + sub + q, sub, |p|)
    ensures Contains(p + sub + q, sub)
  {
    var s := p + sub + q;
    assert s[|p|..|p| + |sub|] == sub;
    assert OccursAt(s, sub, |p|);
  }

  /** A piece `a + x + b` occurs in `l1 + x + l2` when `l1` ends with `a` and
      `l2` starts with `b`. */
  lemma ContainsWrapped(l1: string, p: string, a: string, x: string, b: string, q: string, l2: string)
    requires l1 == p + a && l2 == b + q
    ensures Contains(l1 + x + l2, a + x + b)
  {
    assert l1 + x + l2 == p + (a + x + b) + q;
    ContainsMiddle(p, a + x + b, q);
  }
}

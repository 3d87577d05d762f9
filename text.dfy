/**
 * String operations of Python's str and re that the pipeline uses, restricted to
 * ASCII: whitespace is the ASCII part of Python's whitespace set (space, 9..13 and the
 * separators 28..31), a digit is '0'..'9', and lower-casing maps only 'A'..'Z'.
 */
module Text {
  import opened Wrappers

  predicate IsSpace(c: char) {
    c == ' ' || 9 <= c as int <= 13 || 28 <= c as int <= 31
  }

  predicate IsDigit(c: char) {
    '0' <= c <= '9'
  }

  predicate AllDigits(s: string) {
    forall k :: 0 <= k < |s| ==> IsDigit(s[k])
  }

  // ---------------------------------------------------------------------------
  // Lower-casing (str.lower on ASCII)

  function LowerChar(c: char): char {
    if 'A' <= c <= 'Z' then (c as int + 32) as char else c
  }

  function Lower(s: string): (r: string)
    ensures |r| == |s|
    ensures forall k :: 0 <= k < |s| ==> r[k] == LowerChar(s[k])
  {
    seq(|s|, k requires 0 <= k < |s| => LowerChar(s[k]))
  }

  lemma LowerIdempotent(s: string)
    ensures Lower(Lower(s)) == Lower(s)
  {
  }

  lemma LowerConcat(a: string, b: string)
    ensures Lower(a + b) == Lower(a) + Lower(b)
  {
  }

  // ---------------------------------------------------------------------------
  // Searching (str.find, the `in` operator)

  /** `p` occurs in `s` at index `i` (`s.startswith(p, i)`), compared character by character. */
  predicate OccursAt(s: string, p: string, i: int) {
    0 <= i && i + |p| <= |s| && forall j :: 0 <= j < |p| ==> s[i + j] == p[j]
  }

  /** An occurrence starts with the first character of the pattern. */
  lemma OccursAtFirst(s: string, p: string, i: int)
    requires OccursAt(s, p, i) && |p| > 0
    ensures s[i] == p[0]
  {
    assert s[i + 0] == p[0];
  }

  /** `OccursAt` is the slice comparison. */
  lemma OccursAtSlice(s: string, p: string, i: int)
    ensures OccursAt(s, p, i) <==> 0 <= i && i + |p| <= |s| && s[i..i + |p|] == p
  {
    if 0 <= i && i + |p| <= |s| && s[i..i + |p|] == p {
      forall j | 0 <= j < |p| ensures s[i + j] == p[j] {
        assert s[i..i + |p|][j] == s[i + j];
      }
    }
  }

  /** str.find(p, from): the first index at or after `from` where `p` occurs, or -1. */
  function Find(s: string, p: string, from: nat): (r: int)
    ensures r == -1 || (from <= r && OccursAt(s, p, r))
    decreases |s| - from
  {
    if from + |p| > |s| then -1
    else if OccursAt(s, p, from) then from
    else Find(s, p, from + 1)
  }

  /** `Find` reports the first occurrence, and -1 only when there is none. */
  lemma {:induction false} FindFirst(s: string, p: string, from: nat)
    ensures Find(s, p, from) == -1 ==> forall k :: from <= k ==> !OccursAt(s, p, k)
    ensures Find(s, p, from) != -1 ==> forall k :: from <= k < Find(s, p, from) ==> !OccursAt(s, p, k)
    decreases |s| - from
  {
    if from + |p| <= |s| && !OccursAt(s, p, from) {
      FindFirst(s, p, from + 1);
    }
  }

  /** Where the first character of `p` does not appear, `p` does not occur. */
  lemma NoOccurrenceWithout(s: string, p: string, lo: nat, hi: nat)
    requires |p| > 0 && hi <= |s| && forall j :: lo <= j < hi ==> s[j] != p[0]
    ensures forall m :: lo <= m < hi ==> !OccursAt(s, p, m)
  {
    forall m | lo <= m < hi
      ensures !OccursAt(s, p, m)
    {
      assert s[m + 0] != p[0];
    }
  }

  /** An occurrence at `q` with none in `[from, q)` is what `Find` reports. */
  lemma FindAt(s: string, p: string, from: nat, q: nat)
    requires from <= q && OccursAt(s, p, q)
    requires forall m :: from <= m < q ==> !OccursAt(s, p, m)
    ensures Find(s, p, from) == q
  {
    FindFirst(s, p, from);
  }

  /** Python's `p in s`. */
  predicate Contains(s: string, p: string) {
    Find(s, p, 0) != -1
  }

  /** `p in s` holds exactly when `p` occurs at some index. */
  lemma ContainsIff(s: string, p: string)
    ensures Contains(s, p) ==> exists k :: OccursAt(s, p, k)
    ensures (exists k :: OccursAt(s, p, k)) ==> Contains(s, p)
  {
    FindFirst(s, p, 0);
    if Find(s, p, 0) != -1 {
      assert OccursAt(s, p, Find(s, p, 0));
    }
    if exists k :: OccursAt(s, p, k) {
      var k :| OccursAt(s, p, k);
      assert k >= 0;
    }
  }

  /** The first index at or after `i` that holds `c`, or |s|. */
  function NextChar(s: string, c: char, i: nat): (j: nat)
    requires i <= |s|
    ensures i <= j <= |s| && (j < |s| ==> s[j] == c)
    decreases |s| - i
  {
    if i == |s| || s[i] == c then i else NextChar(s, c, i + 1)
  }

  lemma {:induction false} NextCharRun(s: string, c: char, i: nat)
    requires i <= |s|
    ensures forall k :: i <= k < NextChar(s, c, i) ==> s[k] != c
    decreases |s| - i
  {
    if i < |s| && s[i] != c {
      NextCharRun(s, c, i + 1);
    }
  }

  /** The end of the line that holds position `i`: the next newline at or after `i`, or |s|. */
  function LineEnd(s: string, i: nat): (j: nat)
    requires i <= |s|
    ensures i <= j <= |s| && (j < |s| ==> s[j] == '\n')
  {
    NextChar(s, '\n', i)
  }

  // ---------------------------------------------------------------------------
  // Whitespace (\s*, str.strip, str.split())

  /** The end of the whitespace run that starts at `i` (a greedy `\s*`). */
  function SkipSpaces(s: string, i: nat): (j: nat)
    requires i <= |s|
    ensures i <= j <= |s| && (j < |s| ==> !IsSpace(s[j]))
    decreases |s| - i
  {
    if i < |s| && IsSpace(s[i]) then SkipSpaces(s, i + 1) else i
  }

  lemma {:induction false} SkipSpacesRun(s: string, i: nat)
    requires i <= |s|
    ensures forall k :: i <= k < SkipSpaces(s, i) ==> IsSpace(s[k])
    decreases |s| - i
  {
    if i < |s| && IsSpace(s[i]) {
      SkipSpacesRun(s, i + 1);
    }
  }

  /** The end of the run of non-whitespace characters that starts at `i`. */
  function SkipNonSpaces(s: string, i: nat): (j: nat)
    requires i <= |s|
    ensures i <= j <= |s| && (j < |s| ==> IsSpace(s[j]))
    decreases |s| - i
  {
    if i < |s| && !IsSpace(s[i]) then SkipNonSpaces(s, i + 1) else i
  }

  lemma {:induction false} SkipNonSpacesRun(s: string, i: nat)
    requires i <= |s|
    ensures forall k :: i <= k < SkipNonSpaces(s, i) ==> !IsSpace(s[k])
    decreases |s| - i
  {
    if i < |s| && !IsSpace(s[i]) {
      SkipNonSpacesRun(s, i + 1);
    }
  }

  /** The start of the whitespace run that ends at `j`, not going below `lo`. */
  function BackSkipSpaces(s: string, lo: nat, j: nat): (i: nat)
    requires lo <= j <= |s|
    ensures lo <= i <= j && (i > lo ==> !IsSpace(s[i - 1]))
    decreases j
  {
    if j > lo && IsSpace(s[j - 1]) then BackSkipSpaces(s, lo, j - 1) else j
  }

  lemma {:induction false} BackSkipSpacesRun(s: string, lo: nat, j: nat)
    requires lo <= j <= |s|
    ensures forall k :: BackSkipSpaces(s, lo, j) <= k < j ==> IsSpace(s[k])
    decreases j
  {
    if j > lo && IsSpace(s[j - 1]) {
      BackSkipSpacesRun(s, lo, j - 1);
    }
  }

  predicate IsStripped(r: string) {
    r == [] || (!IsSpace(r[0]) && !IsSpace(r[|r| - 1]))
  }

  /** str.strip(): `s` without its leading and trailing whitespace. */
  function Strip(s: string): (r: string)
    ensures IsStripped(r)
  {
    var a := SkipSpaces(s, 0);
    var b := BackSkipSpaces(s, a, |s|);
    s[a..b]
  }

  /** What `Strip` removes is whitespace at both ends, and it is empty exactly for all-whitespace text. */
  lemma StripSpec(s: string)
    ensures Strip(s) == [] <==> forall k :: 0 <= k < |s| ==> IsSpace(s[k])
    ensures exists a, b :: (0 <= a <= b <= |s| && Strip(s) == s[a..b]
      && (forall k :: 0 <= k < a ==> IsSpace(s[k]))
      && (forall k :: b <= k < |s| ==> IsSpace(s[k])))
  {
    var a := SkipSpaces(s, 0);
    var b := BackSkipSpaces(s, a, |s|);
    SkipSpacesRun(s, 0);
    BackSkipSpacesRun(s, a, |s|);
    assert Strip(s) == s[a..b];
    if a < b {
      assert !IsSpace(s[a]);
    }
  }

  lemma StripKeepsChars(s: string, c: char)
    requires c in Strip(s)
    ensures c in s
  {
    var a := SkipSpaces(s, 0);
    var b := BackSkipSpaces(s, a, |s|);
    var k :| a <= k < b && s[k] == c;
  }

  lemma StripOfStripped(s: string)
    requires IsStripped(s)
    ensures Strip(s) == s
  {
    var a := SkipSpaces(s, 0);
    var b := BackSkipSpaces(s, a, |s|);
    assert s != [] ==> a == 0 && b == |s|;
  }

  /** str.split() with no argument: the maximal runs of non-whitespace, from `i` on. */
  function Words(s: string, i: nat): (r: seq<string>)
    requires i <= |s|
    decreases |s| - i
  {
    var a := SkipSpaces(s, i);
    if a == |s| then []
    else [s[a..SkipNonSpaces(s, a)]] + Words(s, SkipNonSpaces(s, a))
  }

  /** Every word is non-empty and free of whitespace. */
  lemma {:induction false} WordsAreWords(s: string, i: nat)
    requires i <= |s|
    ensures forall w :: w in Words(s, i) ==> w != [] && forall k :: 0 <= k < |w| ==> !IsSpace(w[k])
    decreases |s| - i
  {
    var a := SkipSpaces(s, i);
    if a < |s| {
      var b := SkipNonSpaces(s, a);
      SkipNonSpacesRun(s, a);
      WordsAreWords(s, b);
      assert Words(s, i) == [s[a..b]] + Words(s, b);
    }
  }

  // ---------------------------------------------------------------------------
  // Joining and splitting (str.join, str.split(sep))

  /** sep.join(parts) */
  function Join(sep: string, parts: seq<string>): string {
    if |parts| == 0 then []
    else if |parts| == 1 then parts[0]
    else parts[0] + sep + Join(sep, parts[1..])
  }

  lemma JoinAppend(sep: string, a: seq<string>, b: seq<string>)
    requires |a| >= 1 && |b| >= 1
    ensures Join(sep, a + b) == Join(sep, a) + sep + Join(sep, b)
    decreases |a|
  {
    if |a| == 1 {
      assert (a + b)[1..] == b;
    } else {
      assert (a + b)[1..] == a[1..] + b;
      JoinAppend(sep, a[1..], b);
    }
  }

  lemma JoinKeepsChars(sep: string, parts: seq<string>, c: char)
    requires c in Join(sep, parts)
    ensures c in sep || exists k :: 0 <= k < |parts| && c in parts[k]
    decreases |parts|
  {
    if |parts| > 1 && c !in sep && c !in parts[0] {
      JoinKeepsChars(sep, parts[1..], c);
      var k :| 0 <= k < |parts[1..]| && c in parts[1..][k];
      assert c in parts[k + 1];
    }
  }

  /** Each part stands in the joined text between some prefix and some suffix. */
  lemma {:induction false} JoinHasPart(sep: string, parts: seq<string>, k: nat)
    requires k < |parts|
    ensures exists a, b :: Join(sep, parts) == a + parts[k] + b
    decreases |parts|
  {
    if |parts| == 1 {
      assert Join(sep, parts) == [] + parts[0] + [];
    } else if k == 0 {
      assert Join(sep, parts) == [] + parts[0] + (sep + Join(sep, parts[1..]));
    } else {
      JoinHasPart(sep, parts[1..], k - 1);
      var a, b :| Join(sep, parts[1..]) == a + parts[1..][k - 1] + b;
      assert Join(sep, parts) == (parts[0] + sep + a) + parts[k] + b;
    }
  }

  /** What occurs in `y` occurs in any text around `y`. */
  lemma ContainsInfix(x: string, y: string, z: string, w: string)
    requires Contains(y, w)
    ensures Contains(x + y + z, w)
  {
    ContainsIff(y, w);
    var i :| OccursAt(y, w, i);
    var s := x + y + z;
    forall j | 0 <= j < |w|
      ensures s[|x| + i + j] == w[j]
    {
      assert s[|x| + i + j] == y[i + j];
    }
    assert OccursAt(s, w, |x| + i);
    ContainsIff(s, w);
  }

  /** The first `c` at or after `i` is at `j` when `j` holds `c` and nothing before it does. */
  lemma {:induction false} NextCharIs(s: string, c: char, i: nat, j: nat)
    requires i <= j <= |s| && (j < |s| ==> s[j] == c)
    requires forall k :: i <= k < j ==> s[k] != c
    ensures NextChar(s, c, i) == j
    decreases j - i
  {
    if i < j {
      NextCharIs(s, c, i + 1, j);
    }
  }

  /** str.split(c) for a one-character separator: the pieces between the occurrences of `c`. */
  function Split(s: string, c: char): (r: seq<string>)
    ensures |r| >= 1 && Join([c], r) == s
    decreases |s|
  {
    var i := NextChar(s, c, 0);
    if i == |s| then [s]
    else
      var rest := Split(s[i + 1..], c);
      var r := [s[..i]] + rest;
      assert r[1..] == rest;
      assert s[..i] + [c] + s[i + 1..] == s;
      r
  }

  /** No piece holds the separator. */
  lemma {:induction false} SplitPartsFree(s: string, c: char)
    ensures forall k :: 0 <= k < |Split(s, c)| ==> c !in Split(s, c)[k]
    decreases |s|
  {
    var i := NextChar(s, c, 0);
    NextCharRun(s, c, 0);
    if i < |s| {
      var rest := s[i + 1..];
      SplitPartsFree(rest, c);
      assert Split(s, c) == [s[..i]] + Split(rest, c);
    }
  }

  /** Splitting undoes joining when no part holds the separator. */
  lemma {:induction false} SplitJoin(parts: seq<string>, c: char)
    requires |parts| >= 1
    requires forall k :: 0 <= k < |parts| ==> c !in parts[k]
    ensures Split(Join([c], parts), c) == parts
    decreases |parts|
  {
    var s := Join([c], parts);
    var p0 := parts[0];
    if |parts| == 1 {
      NextCharIs(s, c, 0, |s|);
    } else {
      var tail := Join([c], parts[1..]);
      assert s == p0 + [c] + tail;
      assert s[|p0|] == c;
      assert forall k :: 0 <= k < |p0| ==> s[k] == p0[k];
      NextCharIs(s, c, 0, |p0|);
      assert s[..|p0|] == p0;
      assert s[|p0| + 1..] == tail;
      SplitJoin(parts[1..], c);
      assert [p0] + parts[1..] == parts;
    }
  }

  /** The number of pieces is one more than the number of separators. */
  lemma {:induction false} SplitCount(s: string, c: char)
    ensures |Split(s, c)| == multiset(s)[c] + 1
    decreases |s|
  {
    var i := NextChar(s, c, 0);
    NextCharRun(s, c, 0);
    if i == |s| {
      assert s == Split(s, c)[0];
      assert c !in s;
    } else {
      var rest := s[i + 1..];
      assert Split(s, c) == [s[..i]] + Split(rest, c);
      SplitCount(rest, c);
      assert s == s[..i] + [c] + rest;
      assert c !in s[..i];
      assert multiset(s) == multiset(s[..i]) + multiset([c]) + multiset(rest);
    }
  }

  /** `s.split(c)[-1]`: the last piece. */
  function LastPiece(s: string, c: char): string {
    Split(s, c)[|Split(s, c)| - 1]
  }

  /** The last piece is the suffix after the last `c`, and all of `s` exactly when `c` does not occur. */
  lemma {:induction false} LastPieceSuffix(s: string, c: char)
    ensures |LastPiece(s, c)| <= |s| && s[|s| - |LastPiece(s, c)|..] == LastPiece(s, c)
    ensures c !in LastPiece(s, c)
    ensures c in s <==> |LastPiece(s, c)| < |s|
    ensures |LastPiece(s, c)| < |s| ==> s[|s| - |LastPiece(s, c)| - 1] == c
    decreases |s|
  {
    var i := NextChar(s, c, 0);
    NextCharRun(s, c, 0);
    if i == |s| {
      assert forall k :: 0 <= k < |s| ==> s[k] != c;
    } else {
      var rest := s[i + 1..];
      assert Split(s, c) == [s[..i]] + Split(rest, c);
      assert LastPiece(s, c) == LastPiece(rest, c);
      LastPieceSuffix(rest, c);
      assert s[|s| - |rest|..] == rest;
      assert s[i] == c;
    }
  }

  /** The last piece is the one suffix that holds no `c` and starts the text or follows a `c`. */
  lemma LastPieceUnique(s: string, c: char, k: nat)
    requires k <= |s| && c !in s[k..] && (k == 0 || s[k - 1] == c)
    ensures LastPiece(s, c) == s[k..]
  {
    LastPieceSuffix(s, c);
    var m := |s| - |LastPiece(s, c)|;
    if m < k {
      assert false;
    } else if m > k {
      assert false;
    }
  }

  /** str.rfind(c, 0, hi): the last index below `hi` holding `c`. */
  function LastIndex(s: string, c: char, hi: nat): (r: Option<nat>)
    requires hi <= |s|
    ensures r.Some? ==> r.value < hi && s[r.value] == c && forall k :: r.value < k < hi ==> s[k] != c
    ensures r.None? ==> forall k :: 0 <= k < hi ==> s[k] != c
  {
    if hi == 0 then None
    else if s[hi - 1] == c then Some(hi - 1)
    else LastIndex(s, c, hi - 1)
  }

  // ---------------------------------------------------------------------------
  // Replacing (str.replace)

  /** str.replace(o, n): every occurrence of `o`, scanned left to right without overlap, becomes `n`. */
  function ReplaceAll(s: string, o: string, n: string): (r: string)
    requires |o| > 0
    ensures forall ch :: ch in r ==> ch in s || ch in n
    decreases |s|
  {
    if |s| < |o| then s
    else if s[..|o|] == o then n + ReplaceAll(s[|o|..], o, n)
    else [s[0]] + ReplaceAll(s[1..], o, n)
  }

  /** Replacing a single character by text without it leaves no occurrence of it. */
  lemma {:induction false} ReplaceCharRemoves(s: string, c: char, n: string)
    requires c !in n
    ensures c !in ReplaceAll(s, [c], n)
    decreases |s|
  {
    if |s| >= 1 {
      ReplaceCharRemoves(s[1..], c, n);
    }
  }

  /** Text that does not hold the first character of `o` is left as it is. */
  lemma {:induction false} ReplaceAbsent(s: string, o: string, n: string)
    requires |o| > 0 && o[0] !in s
    ensures ReplaceAll(s, o, n) == s
    decreases |s|
  {
    if |s| >= |o| {
      assert s[..|o|][0] == s[0];
      ReplaceAbsent(s[1..], o, n);
      assert [s[0]] + s[1..] == s;
    }
  }

  // ---------------------------------------------------------------------------
  // Decimal digits (\d+, int() on a digit string, format(n, '02d'))

  /** The end of the digit run that starts at `i` (a greedy `\d*`). */
  function SkipDigits(s: string, i: nat): (j: nat)
    requires i <= |s|
    ensures i <= j <= |s|
    decreases |s| - i
  {
    if i < |s| && IsDigit(s[i]) then SkipDigits(s, i + 1) else i
  }

  /** The run `SkipDigits` passes over is all digits, and it stops at the first non-digit. */
  lemma {:induction false} SkipDigitsRun(s: string, i: nat)
    requires i <= |s|
    ensures var j := SkipDigits(s, i);
      (forall k :: i <= k < j ==> IsDigit(s[k])) && (j < |s| ==> !IsDigit(s[j]))
    decreases |s| - i
  {
    if i < |s| && IsDigit(s[i]) {
      SkipDigitsRun(s, i + 1);
    }
  }

  function DigitValue(c: char): nat
    requires IsDigit(c)
  {
    c as int - '0' as int
  }

  /** The value of a run of decimal digits (leading zeros allowed, as int() allows them). */
  function Val(s: string): nat
    requires AllDigits(s)
  {
    if s == [] then 0 else Val(s[..|s| - 1]) * 10 + DigitValue(s[|s| - 1])
  }

  /** CPython's default `sys.get_int_max_str_digits()`: `int()` refuses decimal text with more digits than this. */
  const IntMaxStrDigits: nat := 4300

  /** The message of the `ValueError` `int()` raises on decimal text of `n` digits, past the limit (CPython 3.12). */
  function IntDigitsError(n: nat): string {
    "Exceeds the limit (4300 digits) for integer string conversion: value has " + NatToDigits(n)
    + " digits; use sys.set_int_max_str_digits() to increase the limit"
  }

  function DigitChar(d: nat): (c: char)
    requires d < 10
    ensures IsDigit(c) && DigitValue(c) == d
  {
    ('0' as int + d) as char
  }

  /** str(n) for a natural number; `Val` reads it back. */
  function NatToDigits(n: nat): (r: string)
    ensures |r| >= 1 && AllDigits(r) && Val(r) == n
    ensures n >= 10 ==> |r| >= 2
  {
    if n < 10 then [DigitChar(n)]
    else
      var r := NatToDigits(n / 10) + [DigitChar(n % 10)];
      assert r[..|r| - 1] == NatToDigits(n / 10);
      r
  }

  /** format(n, '02d'): at least two digits, zero-padded on the left; `Val` reads it back. */
  function Pad2(n: nat): (r: string)
    ensures |r| >= 2 && AllDigits(r) && Val(r) == n
  {
    if n < 10 then
      var r := ['0'] + NatToDigits(n);
      assert r[..1] == ['0'];
      r
    else NatToDigits(n)
  }

  /** str.rstrip(c): `s` without the run of `c` at its end. */
  function RStripChar(s: string, c: char): (r: string)
    ensures |r| <= |s| && r == s[..|r|] && (|r| == 0 || r[|r| - 1] != c)
    ensures forall k :: |r| <= k < |s| ==> s[k] == c
  {
    if |s| > 0 && s[|s| - 1] == c then RStripChar(s[..|s| - 1], c) else s
  }
}

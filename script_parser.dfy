/**
 * The script parser: a markdown video script becomes a sequence of timed segments.
 * Every regular expression of the parser is written out as a scanner that tries one
 * position (`...At`), a search for the leftmost position where it matches (`Find...`) and,
 * for patterns used with `finditer`, a function that collects the matches in order.
 */
module ScriptParser {
  import opened Wrappers
  import opened Text
  
  // ---------------------------------------------------------------------------
  // Data model

  /** One timed unit of the script. Times are whole seconds, as the parser produces them. */
  datatype Segment = Segment(
    startTime: nat,
    endTime: nat,
    title: string,
    screen: seq<string>,
    voiceover: seq<string>,
    editingNotes: seq<string>)
  {
    /** `end_time - start_time`; negative when the heading's range is reversed. */
    function Duration(): int {
      endTime - startTime
    }

    /** The voiceover lines joined with single spaces. */
    function VoiceoverText(): string {
      Join(" ", voiceover)
    }
  }

  /** Narration lines added to a segment come later in `VoiceoverText`, after one space. */
  lemma VoiceoverTextAppend(seg: Segment, more: seq<string>)
    requires |seg.voiceover| >= 1 && |more| >= 1
    ensures seg.(voiceover := seg.voiceover + more).VoiceoverText()
         == seg.VoiceoverText() + " " + Join(" ", more)
  {
    JoinAppend(" ", seg.voiceover, more);
  }

  /** One section of the script as `_extract_sections` records it. */
  datatype Section = Section(timestampStr: string, title: string, content: string)

  datatype TimeSpan = TimeSpan(start: nat, end: nat)

  // ---------------------------------------------------------------------------
  // Timestamps
  // The pattern is an opening bracket and then four digit groups, closed in turn by `:`, `-`,
  // `:` and `]`.

  /** The four groups of one timestamp match and the index just past its `]`. */
  datatype Stamp = Stamp(startMin: string, startSec: string, endMin: string, endSec: string, end: nat)

  predicate WellFormed(g: Stamp) {
    |g.startMin| > 0 && AllDigits(g.startMin) && |g.startSec| > 0 && AllDigits(g.startSec) &&
    |g.endMin| > 0 && AllDigits(g.endMin) && |g.endSec| > 0 && AllDigits(g.endSec)
  }

  /** The text a timestamp match covers. */
  function StampText(g: Stamp): string {
    "[" + (g.startMin + (":" + (g.startSec + ("-" + (g.endMin + (":" + (g.endSec + "]")))))))
  }

  /** `minutes * 60 + seconds` for both ends; seconds are not bounded and the order is not checked. */
  function Decode(g: Stamp): TimeSpan
    requires WellFormed(g)
  {
    TimeSpan(Val(g.startMin) * 60 + Val(g.startSec), Val(g.endMin) * 60 + Val(g.endSec))
  }

  /** No group has more digits than `int()` converts. */
  predicate Fits(g: Stamp) {
    |g.startMin| <= IntMaxStrDigits && |g.startSec| <= IntMaxStrDigits
    && |g.endMin| <= IntMaxStrDigits && |g.endSec| <= IntMaxStrDigits
  }

  /**
   * `map(int, match.groups())`, unpacked and decoded: `int()` reads the groups in order and the
   * first one past the digit limit raises its `ValueError`.
   */
  function ReadFields(g: Stamp): Result<TimeSpan>
    requires WellFormed(g)
  {
    if |g.startMin| > IntMaxStrDigits then Err(IntDigitsError(|g.startMin|))
    else if |g.startSec| > IntMaxStrDigits then Err(IntDigitsError(|g.startSec|))
    else if |g.endMin| > IntMaxStrDigits then Err(IntDigitsError(|g.endMin|))
    else if |g.endSec| > IntMaxStrDigits then Err(IntDigitsError(|g.endSec|))
    else Ok(Decode(g))
  }

  /** `\d+` at `i` followed by the character `after`: the index of `after`. */
  function DigitsThen(s: string, i: nat, after: char): Option<nat>
    requires i <= |s|
  {
    var j := SkipDigits(s, i);
    if i < j && j < |s| && s[j] == after then Some(j) else None
  }

  /** Positions `i` to `j` hold one or more digits and `after` stands at `j`. */
  predicate DigitField(s: string, i: nat, j: nat, after: char) {
    i < j < |s| && s[j] == after && forall k :: i <= k < j ==> IsDigit(s[k])
  }

  /** For a non-digit `after`, `DigitsThen` finds exactly the digit fields. */
  lemma DigitsThenField(s: string, i: nat, j: nat, after: char)
    requires i <= |s| && !IsDigit(after)
    ensures DigitsThen(s, i, after) == Some(j) <==> DigitField(s, i, j, after)
  {
    SkipDigitsRun(s, i);
    if DigitField(s, i, j, after) {
      var e := SkipDigits(s, i);
      if e != j {
        assert false;
      }
    }
  }

  /** Where the four digit groups of a timestamp match close: at `a` (':'), `b` ('-'), `c` (':') and `d` (']'). */
  datatype Ends = Ends(a: nat, b: nat, c: nat, d: nat)

  /** `[` at `i` and the four digit fields closed at `a`, `b`, `c` and `d`. */
  predicate StampFields(s: string, i: nat, e: Ends) {
    i < |s| && s[i] == '[' && DigitField(s, i + 1, e.a, ':') && DigitField(s, e.a + 1, e.b, '-')
    && DigitField(s, e.b + 1, e.c, ':') && DigitField(s, e.c + 1, e.d, ']')
  }

  /** The scan of `\[(\d+):(\d+)-(\d+):(\d+)\]` at `i`, as the positions of its closing characters. */
  function ScanStamp(s: string, i: nat): (r: Option<Ends>)
    requires i <= |s|
    ensures r.Some? ==> i < r.value.a < r.value.b < r.value.c < r.value.d < |s|
  {
    if i < |s| && s[i] == '[' then
      match DigitsThen(s, i + 1, ':')
      case None => None
      case Some(a) =>
        match DigitsThen(s, a + 1, '-')
        case None => None
        case Some(b) =>
          match DigitsThen(s, b + 1, ':')
          case None => None
          case Some(c) =>
            match DigitsThen(s, c + 1, ']')
            case None => None
            case Some(d) => Some(Ends(a, b, c, d))
    else None
  }

  /** `ScanStamp` unfolded on four successful field scans. */
  lemma ScanStampIs(s: string, i: nat, e: Ends)
    requires i < e.a < e.b < e.c < e.d < |s| && s[i] == '['
    requires DigitsThen(s, i + 1, ':') == Some(e.a) && DigitsThen(s, e.a + 1, '-') == Some(e.b)
    requires DigitsThen(s, e.b + 1, ':') == Some(e.c) && DigitsThen(s, e.c + 1, ']') == Some(e.d)
    ensures ScanStamp(s, i) == Some(e)
  {
  }

  /** A successful scan is four successful field scans. */
  lemma ScanStampParts(s: string, i: nat)
    requires i <= |s| && ScanStamp(s, i).Some?
    ensures var e := ScanStamp(s, i).value;
      s[i] == '[' && DigitsThen(s, i + 1, ':') == Some(e.a) && DigitsThen(s, e.a + 1, '-') == Some(e.b)
      && DigitsThen(s, e.b + 1, ':') == Some(e.c) && DigitsThen(s, e.c + 1, ']') == Some(e.d)
  {
  }

  /** What the scan reports are the four fields. */
  lemma ScanStampSound(s: string, i: nat)
    requires i <= |s| && ScanStamp(s, i).Some?
    ensures StampFields(s, i, ScanStamp(s, i).value)
  {
    var e := ScanStamp(s, i).value;
    ScanStampParts(s, i);
    DigitsThenField(s, i + 1, e.a, ':');
    DigitsThenField(s, e.a + 1, e.b, '-');
    DigitsThenField(s, e.b + 1, e.c, ':');
    DigitsThenField(s, e.c + 1, e.d, ']');
  }

  /** Where the four fields stand, the scan finds them. */
  lemma ScanStampComplete(s: string, i: nat, e: Ends)
    requires StampFields(s, i, e)
    ensures ScanStamp(s, i) == Some(e)
  {
    DigitsThenField(s, i + 1, e.a, ':');
    DigitsThenField(s, e.a + 1, e.b, '-');
    DigitsThenField(s, e.b + 1, e.c, ':');
    DigitsThenField(s, e.c + 1, e.d, ']');
    ScanStampIs(s, i, e);
  }

  /** The groups the fields delimit; the match ends after `]`. */
  function FieldStamp(s: string, i: nat, e: Ends): Stamp
    requires i < e.a < e.b < e.c < e.d < |s|
  {
    Stamp(s[i + 1..e.a], s[e.a + 1..e.b], s[e.b + 1..e.c], s[e.c + 1..e.d], e.d + 1)
  }

  /** The timestamp pattern matched at position `i` (`re.match` of the pattern there). */
  function StampAt(s: string, i: nat): Option<Stamp>
    requires i <= |s|
  {
    match ScanStamp(s, i)
    case None => None
    case Some(e) => Some(FieldStamp(s, i, e))
  }

  lemma FieldStampWellFormed(s: string, i: nat, e: Ends)
    requires StampFields(s, i, e)
    ensures WellFormed(FieldStamp(s, i, e)) && i < FieldStamp(s, i, e).end <= |s|
  {
  }

  /** A match has four digit groups and ends inside the text. */
  lemma StampAtWellFormed(s: string, i: nat)
    requires i <= |s| && StampAt(s, i).Some?
    ensures WellFormed(StampAt(s, i).value) && i < StampAt(s, i).value.end <= |s|
  {
    ScanStampSound(s, i);
    FieldStampWellFormed(s, i, ScanStamp(s, i).value);
  }

  /** A slice around position `q`: the group before it, the separator there, what follows. */
  lemma SliceAround(s: string, p: nat, q: nat, n: nat, x: string, c: char, rest: string)
    requires p <= q < n <= |s| && s[p..q] == x && s[q] == c && s[q + 1..n] == rest
    ensures s[p..n] == x + ([c] + rest)
  {
    assert s[p..n] == s[p..q] + s[q..n];
    assert s[q..n] == [s[q]] + s[q + 1..n];
  }

  /** Text that has the separators of a timestamp at `i`, `a`, `b`, `c` and `d` is the groups between them, joined by the separators. */
  lemma SeparatedText(s: string, i: nat, a: nat, b: nat, c: nat, d: nat)
    requires i < a < b < c < d < |s|
    requires s[i] == '[' && s[a] == ':' && s[b] == '-' && s[c] == ':' && s[d] == ']'
    ensures s[i..d + 1] == "[" + (s[i + 1..a] + (":" + (s[a + 1..b] + ("-" + (s[b + 1..c] + (":" + (s[c + 1..d] + "]")))))))
  {
    var n := d + 1;
    var x1, x2, x3, x4 := s[i + 1..a], s[a + 1..b], s[b + 1..c], s[c + 1..d];
    SliceAround(s, c + 1, d, n, x4, ']', []);
    SliceAround(s, b + 1, c, n, x3, ':', x4 + "]");
    SliceAround(s, a + 1, b, n, x2, '-', x3 + (":" + (x4 + "]")));
    SliceAround(s, i + 1, a, n, x1, ':', x2 + ("-" + (x3 + (":" + (x4 + "]")))));
    assert s[i..n] == [s[i]] + s[i + 1..n];
  }

  /** The fields spell out the timestamp text of their groups. */
  lemma FieldsText(s: string, i: nat, e: Ends)
    requires StampFields(s, i, e)
    ensures s[i..e.d + 1] == StampText(FieldStamp(s, i, e))
  {
    SeparatedText(s, i, e.a, e.b, e.c, e.d);
  }

  /** What `StampAt` matches is the timestamp text of its groups. */
  lemma StampAtSound(s: string, i: nat)
    requires i <= |s| && StampAt(s, i).Some?
    ensures var g := StampAt(s, i).value; i < g.end <= |s| && s[i..g.end] == StampText(g)
  {
    ScanStampSound(s, i);
    FieldsText(s, i, ScanStamp(s, i).value);
  }

  /** The suffix from `p` spells a digit group `x` ending at `q`, the character `after` and `rest`. */
  lemma FieldAt(t: string, p: nat, q: nat, x: string, after: char, rest: string)
    requires q == p + |x| && p <= |t| && t[p..] == x + ([after] + rest) && |x| > 0 && AllDigits(x)
    ensures DigitField(t, p, q, after) && t[p..q] == x && t[q + 1..] == rest
  {
    var y := t[p..];
    assert y[..|x|] == x;
    assert y[|x|..] == [after] + rest;
    forall k | p <= k < q
      ensures IsDigit(t[k])
    {
      assert t[k] == y[k - p] == x[k - p];
    }
    assert t[p..q] == y[..|x|];
    assert t[q + 1..] == y[|x| + 1..];
  }

  /** Two digit groups in a row, each closed by its separator. */
  lemma FieldPair(t: string, p: nat, q1: nat, q2: nat, x: string, c1: char, y: string, c2: char, mid: string, rest: string)
    requires q1 == p + |x| && q2 == q1 + 1 + |y| && p <= |t| && |x| > 0 && AllDigits(x) && |y| > 0 && AllDigits(y)
    requires t[p..] == x + ([c1] + mid) && mid == y + ([c2] + rest)
    ensures DigitField(t, p, q1, c1) && t[p..q1] == x
    ensures DigitField(t, q1 + 1, q2, c2) && t[q1 + 1..q2] == y && t[q2 + 1..] == rest
  {
    FieldAt(t, p, q1, x, c1, mid);
    FieldAt(t, q1 + 1, q2, y, c2, rest);
  }

  lemma FieldStampOf(t: string, e: Ends, x1: string, x2: string, x3: string, x4: string)
    requires 0 < e.a < e.b < e.c < e.d && e.d + 1 == |t|
    requires t[1..e.a] == x1 && t[e.a + 1..e.b] == x2 && t[e.b + 1..e.c] == x3 && t[e.c + 1..e.d] == x4
    ensures FieldStamp(t, 0, e) == Stamp(x1, x2, x3, x4, |t|)
  {
  }

  /** The timestamp text of well-formed groups matches at its own start, with exactly those groups. */
  lemma StampTextMatches(g: Stamp, t: string)
    requires WellFormed(g) && t == StampText(g)
    ensures StampAt(t, 0) == Some(g.(end := |t|))
  {
    var r3 := g.endSec + "]";
    var r2 := g.endMin + (":" + r3);
    var r1 := g.startSec + ("-" + r2);
    assert t[1..] == g.startMin + (":" + r1);
    assert r3 == g.endSec + ("]" + []);
    var a := 1 + |g.startMin|;
    var b := a + 1 + |g.startSec|;
    var c := b + 1 + |g.endMin|;
    var e := Ends(a, b, c, c + 1 + |g.endSec|);
    FieldPair(t, 1, a, b, g.startMin, ':', g.startSec, '-', r1, r2);
    FieldPair(t, b + 1, c, e.d, g.endMin, ':', g.endSec, ']', r3, []);
    assert t[b + 1..c] == g.endMin && t[c + 1..e.d] == g.endSec;
    ScanStampComplete(t, 0, e);
    FieldStampOf(t, e, g.startMin, g.startSec, g.endMin, g.endSec);
  }

  /** The leftmost position at or after `from` where a timestamp matches (`re.search`). */
  function FindStamp(s: string, from: nat): (r: Option<nat>)
    requires from <= |s|
    ensures r.Some? ==> from <= r.value <= |s| && ScanStamp(s, r.value).Some?
    decreases |s| - from
  {
    if ScanStamp(s, from).Some? then Some(from)
    else if from == |s| then None
    else FindStamp(s, from + 1)
  }

  /** No position in `lo..hi` (and not past the end) starts a timestamp match. */
  predicate NoStampIn(s: string, lo: nat, hi: nat) {
    forall k :: lo <= k < hi && k <= |s| ==> ScanStamp(s, k).None?
  }

  /** `FindStamp` reports the leftmost match: nothing matches before it, or anywhere when it finds none. */
  lemma {:induction false} FindStampFirst(s: string, from: nat)
    requires from <= |s|
    ensures NoStampIn(s, from, FindStamp(s, from).GetOr(|s| + 1))
    decreases |s| - from, 1
  {
    if ScanStamp(s, from).None? && from < |s| {
      FindStampNext(s, from);
    }
  }

  /** The step of `FindStampFirst` past a position without a match. */
  lemma {:induction false} FindStampNext(s: string, from: nat)
    requires from < |s| && ScanStamp(s, from).None?
    ensures NoStampIn(s, from, FindStamp(s, from).GetOr(|s| + 1))
    decreases |s| - from, 0
  {
    FindStampFirst(s, from + 1);
    assert FindStamp(s, from) == FindStamp(s, from + 1);
    NoStampBelow(s, from, FindStamp(s, from + 1).GetOr(|s| + 1));
  }

  /** A position without a timestamp extends a range without one downwards. */
  lemma NoStampBelow(s: string, lo: nat, hi: nat)
    requires lo <= |s| && ScanStamp(s, lo).None? && NoStampIn(s, lo + 1, hi)
    ensures NoStampIn(s, lo, hi)
  {
  }


  /**
   * `_parse_timestamp`: the first timestamp anywhere in the string, its groups read by `int()`;
   * ValueError without one, or when a group is too long for `int()`.
   */
  function ParseTimestamp(s: string): Result<TimeSpan> {
    match FindStamp(s, 0)
    case None => Err("Invalid timestamp format: " + s)
    case Some(i) =>
      StampAtWellFormed(s, i);
      ReadFields(StampAt(s, i).value)
  }

  /**
   * `_parse_timestamp` reports an invalid format when no position holds a timestamp; otherwise
   * it reads the groups of the leftmost one, which succeeds exactly when they fit `int()`'s
   * digit limit, with that timestamp's times.
   */
  lemma ParseTimestampSpec(s: string)
    ensures (forall k :: 0 <= k <= |s| ==> ScanStamp(s, k).None?) ==> ParseTimestamp(s) == Err("Invalid timestamp format: " + s)
    ensures !(forall k :: 0 <= k <= |s| ==> ScanStamp(s, k).None?) ==> exists i :: (0 <= i <= |s| && StampAt(s, i).Some?
      && (forall k :: 0 <= k < i ==> ScanStamp(s, k).None?) && WellFormed(StampAt(s, i).value)
      && ParseTimestamp(s) == ReadFields(StampAt(s, i).value)
      && (ParseTimestamp(s).Ok? <==> Fits(StampAt(s, i).value))
      && (Fits(StampAt(s, i).value) ==> ParseTimestamp(s) == Ok(Decode(StampAt(s, i).value))))
  {
    FindStampFirst(s, 0);
    match FindStamp(s, 0)
    case None =>
    case Some(i) =>
      StampAtWellFormed(s, i);
      var g := StampAt(s, i).value;
      ReadFieldsOk(g);
      assert ParseTimestamp(s) == ReadFields(g);
      assert forall k :: 0 <= k < i ==> ScanStamp(s, k).None?;
  }

  /** `int()` reads all four groups exactly when they fit its digit limit. */
  lemma ReadFieldsOk(g: Stamp)
    requires WellFormed(g)
    ensures ReadFields(g).Ok? <==> Fits(g)
    ensures Fits(g) ==> ReadFields(g) == Ok(Decode(g))
  {
  }

  /**
   * A string that is exactly one timestamp matches at its start with those groups, and
   * decodes to that timestamp's minutes and seconds unless a group is too long for `int()`.
   */
  lemma ParseStampText(g: Stamp)
    requires WellFormed(g)
    ensures StampAt(StampText(g), 0) == Some(g.(end := |StampText(g)|))
    ensures ParseTimestamp(StampText(g)) == ReadFields(g)
    ensures ParseTimestamp(StampText(g)).Ok? <==> Fits(g)
    ensures Fits(g) ==> ParseTimestamp(StampText(g)) == Ok(Decode(g))
  {
    var t := StampText(g);
    StampTextMatches(g, t);
    ParseAtStart(t);
    DecodeIgnoresEnd(g, |t|);
  }

  lemma ParseAtStart(s: string)
    requires StampAt(s, 0).Some?
    ensures WellFormed(StampAt(s, 0).value) && ParseTimestamp(s) == ReadFields(StampAt(s, 0).value)
  {
    StampAtWellFormed(s, 0);
    assert FindStamp(s, 0) == Some(0);
  }

  lemma DecodeIgnoresEnd(g: Stamp, e: nat)
    requires WellFormed(g)
    ensures Decode(g.(end := e)) == Decode(g) && ReadFields(g.(end := e)) == ReadFields(g)
  {
  }

  lemma ValOne(a: char)
    requires IsDigit(a)
    ensures Val([a]) == DigitValue(a)
  {
    assert [a][..0] == [];
  }

  lemma ValTwo(a: char, b: char)
    requires IsDigit(a) && IsDigit(b)
    ensures Val([a, b]) == DigitValue(a) * 10 + DigitValue(b)
  {
    assert [a, b][..1] == [a];
    ValOne(a);
  }

  lemma ExampleTimes(g: Stamp)
    requires g == Stamp("1", "05", "2", "30", 0)
    ensures Decode(g) == TimeSpan(65, 150)
  {
    ValOne('1');
    ValTwo('0', '5');
    ValOne('2');
    ValTwo('3', '0');
  }

  /** The heading range `1:05-2:30` is 65 to 150 seconds. */
  lemma ParseExample(s: string)
    requires s == "[1:05-2:30]"
    ensures ParseTimestamp(s) == Ok(TimeSpan(65, 150))
  {
    var g := Stamp("1", "05", "2", "30", 0);
    assert StampText(g) == s;
    ParseStampText(g);
    ExampleTimes(g);
  }

  lemma UncheckedTimes(g: Stamp)
    requires g == Stamp("0", "75", "0", "10", 0)
    ensures Decode(g) == TimeSpan(75, 10)
  {
    ValOne('0');
    ValTwo('7', '5');
    ValTwo('1', '0');
  }

  /** Seconds past 59 are accepted and a range that ends before it starts is not rejected. */
  lemma NoRangeCheck(s: string)
    requires s == "[0:75-0:10]"
    ensures ParseTimestamp(s) == Ok(TimeSpan(75, 10))
  {
    var g := Stamp("0", "75", "0", "10", 0);
    assert StampText(g) == s;
    ParseStampText(g);
    UncheckedTimes(g);
  }

  // ---------------------------------------------------------------------------
  // Sections
  // `###`, optional whitespace, a bracketed timestamp, optional whitespace and a lazy title that
  // may span lines and stops before the next `###` or the end of the text; matched left to right.

  /**
   * One section match: `###` at `start`, the timestamp from `stamp` to `stampEnd`, the
   * title group from `titleStart` to `end`, where the next `###` or the end of the text stands.
   */
  datatype SectionMatch = SectionMatch(start: nat, stamp: nat, stampEnd: nat, titleStart: nat, end: nat)

  /**
   * The section pattern tried at `i`. After the timestamp `\s*` takes all whitespace and
   * `(.+?)` at least one character, up to the first `###` or the end. When only whitespace
   * follows the timestamp, `\s*` gives back its last character to `(.+?)`; with nothing at
   * all after the timestamp there is no match.
   */
  function SectionAt(s: string, i: nat): Option<SectionMatch>
    requires i <= |s|
  {
    if !OccursAt(s, "###", i) then None
    else
      var j := SkipSpaces(s, i + 3);
      match ScanStamp(s, j)
      case None => None
      case Some(e) =>
        var k := SkipSpaces(s, e.d + 1);
        if k < |s| then
          var f := Find(s, "###", k + 1);
          Some(SectionMatch(i, j, e.d + 1, k, if f == -1 then |s| else f))
        else if e.d + 1 < k then Some(SectionMatch(i, j, e.d + 1, k - 1, |s|))
        else None
  }

  /** The positions of a section match are ordered and inside the text. */
  predicate Ordered(s: string, m: SectionMatch) {
    m.start + 3 <= m.stamp < m.stampEnd <= m.titleStart < m.end <= |s|
  }

  lemma SectionAtOrdered(s: string, i: nat)
    requires i <= |s| && SectionAt(s, i).Some?
    ensures Ordered(s, SectionAt(s, i).value) && SectionAt(s, i).value.start == i
  {
  }

  /** The leftmost position at or after `from` where a section matches. */
  function FindSection(s: string, from: nat): (r: Option<nat>)
    requires from <= |s|
    ensures r.Some? ==> from <= r.value <= |s| && SectionAt(s, r.value).Some?
    decreases |s| - from
  {
    if SectionAt(s, from).Some? then Some(from)
    else if from == |s| then None
    else FindSection(s, from + 1)
  }

  /** No position in `lo..hi` (and not past the end) starts a section match. */
  predicate NoSectionIn(s: string, lo: nat, hi: nat) {
    forall k :: lo <= k < hi && k <= |s| ==> SectionAt(s, k).None?
  }

  /** `FindSection` reports the leftmost match: nothing matches before it, or anywhere when it finds none. */
  lemma {:induction false} FindSectionFirst(s: string, from: nat)
    requires from <= |s|
    ensures NoSectionIn(s, from, FindSection(s, from).GetOr(|s| + 1))
    decreases |s| - from, 1
  {
    if SectionAt(s, from).None? && from < |s| {
      FindSectionNext(s, from);
    }
  }

  /** The step of `FindSectionFirst` past a position without a match. */
  lemma {:induction false} FindSectionNext(s: string, from: nat)
    requires from < |s| && SectionAt(s, from).None?
    ensures NoSectionIn(s, from, FindSection(s, from).GetOr(|s| + 1))
    decreases |s| - from, 0
  {
    FindSectionFirst(s, from + 1);
    assert FindSection(s, from) == FindSection(s, from + 1);
    NoSectionBelow(s, from, FindSection(s, from + 1).GetOr(|s| + 1));
  }

  /** A position without a section extends a range without one downwards. */
  lemma NoSectionBelow(s: string, lo: nat, hi: nat)
    requires lo <= |s| && SectionAt(s, lo).None? && NoSectionIn(s, lo + 1, hi)
    ensures NoSectionIn(s, lo, hi)
  {
  }


  // ---------------------------------------------------------------------------
  // The section body
  // The first block that opens with three backticks and a newline and closes at the next newline
  // followed by three backticks.

  /** A fenced block opening at `p`: three backticks and a newline there, closed by the first newline-then-three-backticks after it. */
  function FenceAt(c: string, p: nat): (r: Option<nat>)
    ensures r.Some? ==> OccursAt(c, "```\n", p) && p + 4 <= r.value && OccursAt(c, "\n```", r.value)
  {
    if !OccursAt(c, "```\n", p) then None
    else
      var q := Find(c, "\n```", p + 4);
      if q == -1 then None else Some(q)
  }

  /** The leftmost position at or after `from` where a fenced block opens and is closed. */
  function FindFence(c: string, from: nat): (r: Option<nat>)
    requires from <= |c|
    ensures r.Some? ==> from <= r.value <= |c| && FenceAt(c, r.value).Some?
    decreases |c| - from
  {
    if FenceAt(c, from).Some? then Some(from)
    else if from == |c| then None
    else FindFence(c, from + 1)
  }

  /** No position in `lo..hi` (and not past the end) starts a closed fenced block. */
  predicate NoFenceIn(c: string, lo: nat, hi: nat) {
    forall k :: lo <= k < hi && k <= |c| ==> FenceAt(c, k).None?
  }

  /** `FindFence` reports the leftmost match: nothing matches before it, or anywhere when it finds none. */
  lemma {:induction false} FindFenceFirst(c: string, from: nat)
    requires from <= |c|
    ensures NoFenceIn(c, from, FindFence(c, from).GetOr(|c| + 1))
    decreases |c| - from, 1
  {
    if FenceAt(c, from).None? && from < |c| {
      FindFenceNext(c, from);
    }
  }

  /** The step of `FindFenceFirst` past a position without a match. */
  lemma {:induction false} FindFenceNext(c: string, from: nat)
    requires from < |c| && FenceAt(c, from).None?
    ensures NoFenceIn(c, from, FindFence(c, from).GetOr(|c| + 1))
    decreases |c| - from, 0
  {
    FindFenceFirst(c, from + 1);
    assert FindFence(c, from) == FindFence(c, from + 1);
    NoFenceBelow(c, from, FindFence(c, from + 1).GetOr(|c| + 1));
  }

  /** A position without a fence extends a range without one downwards. */
  lemma NoFenceBelow(c: string, lo: nat, hi: nat)
    requires lo <= |c| && FenceAt(c, lo).None? && NoFenceIn(c, lo + 1, hi)
    ensures NoFenceIn(c, lo, hi)
  {
  }


  /** The interior of the first fenced block, or the whole section text when there is none. */
  function Body(c: string): string {
    match FindFence(c, 0)
    case None => c
    case Some(p) => c[p + 4..FenceAt(c, p).value]
  }

  /** The record `_extract_sections` builds from one match. */
  function SectionOf(s: string, m: SectionMatch): Section
    requires Ordered(s, m)
  {
    Section(s[m.stamp..m.stampEnd], Strip(s[m.titleStart..m.end]), Body(s[m.start..m.end]))
  }

  /** The match `finditer` reports next, searching from `pos`. */
  function NextSection(s: string, pos: nat): (r: Option<SectionMatch>)
    requires pos <= |s|
    ensures r.Some? ==> Ordered(s, r.value) && pos <= r.value.start
  {
    match FindSection(s, pos)
    case None => None
    case Some(i) =>
      SectionAtOrdered(s, i);
      SectionAt(s, i)
  }

  /** The sections of the matches from `pos` on, in document order. */
  function SectionsFrom(s: string, pos: nat): seq<Section>
    requires pos <= |s|
    decreases |s| - pos
  {
    match NextSection(s, pos)
    case None => []
    case Some(m) => [SectionOf(s, m)] + SectionsFrom(s, m.end)
  }

  lemma SectionsFromStep(s: string, pos: nat, m: SectionMatch)
    requires pos <= |s| && NextSection(s, pos) == Some(m)
    ensures SectionsFrom(s, pos) == [SectionOf(s, m)] + SectionsFrom(s, m.end)
  {
  }

  /** The loop's step: the sections collected so far and those from the next match on are the same with that match's section moved over. */
  lemma SectionsFromAppend(s: string, pos: nat, m: SectionMatch, before: seq<Section>)
    requires pos <= |s| && NextSection(s, pos) == Some(m)
    ensures before + SectionsFrom(s, pos) == (before + [SectionOf(s, m)]) + SectionsFrom(s, m.end)
  {
    SectionsFromStep(s, pos, m);
    var one, after := [SectionOf(s, m)], SectionsFrom(s, m.end);
    var lhs, rhs := before + (one + after), (before + one) + after;
    forall i | 0 <= i < |lhs|
      ensures lhs[i] == rhs[i]
    {
    }
    assert lhs == rhs;
  }

  /** `_extract_sections`: the `finditer` loop over the raw text. */
  method ExtractSections(text: string) returns (sections: seq<Section>)
    ensures sections == SectionsFrom(text, 0)
  {
    sections := [];
    var pos := 0;
    while NextSection(text, pos).Some?
      invariant pos <= |text|
      invariant sections + SectionsFrom(text, pos) == SectionsFrom(text, 0)
      decreases |text| - pos
    {
      var m := NextSection(text, pos).value;
      SectionsFromAppend(text, pos, m, sections);
      sections := sections + [SectionOf(text, m)];
      pos := m.end;
    }
  }

  /** The text holds a timestamp from its first character, and `_parse_timestamp` reads that one. */
  predicate ReadsOwnStamp(t: string) {
    StampAt(t, 0).Some? && WellFormed(StampAt(t, 0).value) && ParseTimestamp(t) == ReadFields(StampAt(t, 0).value)
  }

  /**
   * The timestamp a section match covers is a timestamp match, and the recorded text is that
   * timestamp alone, read back with the same groups.
   */
  lemma SectionTimestamp(s: string, i: nat)
    requires i <= |s| && SectionAt(s, i).Some?
    ensures StampAt(s, SectionAt(s, i).value.stamp).Some?
    ensures WellFormed(StampAt(s, SectionAt(s, i).value.stamp).value)
    ensures ParseTimestamp(SectionOf(s, SectionAt(s, i).value).timestampStr)
         == ReadFields(StampAt(s, SectionAt(s, i).value.stamp).value)
    ensures ReadsOwnStamp(SectionOf(s, SectionAt(s, i).value).timestampStr)
  {
    SectionAtOrdered(s, i);
    var m := SectionAt(s, i).value;
    StampAtWellFormed(s, m.stamp);
    StampAtSound(s, m.stamp);
    var g := StampAt(s, m.stamp).value;
    assert g.end == m.stampEnd;
    ParseStampText(g);
    DecodeIgnoresEnd(g, |StampText(g)|);
  }

  /**
   * Every section `_extract_sections` records carries a timestamp that `_parse_timestamp` reads
   * from its first character: the invalid-format error never arises, and `parse`'s `except`
   * branch is taken only through `int()`'s digit limit.
   */
  lemma {:induction false} SectionsParse(s: string, pos: nat)
    requires pos <= |s|
    ensures forall k :: 0 <= k < |SectionsFrom(s, pos)| ==> ReadsOwnStamp(SectionsFrom(s, pos)[k].timestampStr)
    decreases |s| - pos
  {
    forall k | 0 <= k < |SectionsFrom(s, pos)|
      ensures ReadsOwnStamp(SectionsFrom(s, pos)[k].timestampStr)
    {
      var i := SectionIndex(s, pos, k);
      SectionTimestamp(s, i);
    }
  }

  /** Where the `k`-th section from `pos` on was matched. */
  ghost function {:induction false} SectionIndex(s: string, pos: nat, k: nat): (i: nat)
    requires pos <= |s| && k < |SectionsFrom(s, pos)|
    ensures i <= |s| && SectionAt(s, i).Some? && Ordered(s, SectionAt(s, i).value)
    ensures SectionsFrom(s, pos)[k] == SectionOf(s, SectionAt(s, i).value)
    decreases |s| - pos
  {
    var m := NextSection(s, pos).value;
    SectionsFromStep(s, pos, m);
    SectionAtOrdered(s, FindSection(s, pos).value);
    if k == 0 then FindSection(s, pos).value
    else
      SectionsFromShift(s, pos, m, k);
      SectionIndex(s, m.end, k - 1)
  }

  /** Past the first, the sections from `pos` on are those after the next match. */
  lemma SectionsFromShift(s: string, pos: nat, m: SectionMatch, k: nat)
    requires pos <= |s| && NextSection(s, pos) == Some(m) && 0 < k < |SectionsFrom(s, pos)|
    ensures k - 1 < |SectionsFrom(s, m.end)| && SectionsFrom(s, pos)[k] == SectionsFrom(s, m.end)[k - 1]
  {
    SectionsFromStep(s, pos, m);
    var one, rest := [SectionOf(s, m)], SectionsFrom(s, m.end);
    assert (one + rest)[k] == rest[k - 1];
  }

  /**
   * The title group starts after the whitespace that follows the timestamp (or on its last
   * character) and ends at the first `###` after its first character, or at the end of the text;
   * it is not limited to the heading line.
   */
  lemma SectionTitleSpan(s: string, i: nat)
    requires i <= |s| && SectionAt(s, i).Some?
    ensures forall k :: SectionAt(s, i).value.stampEnd <= k < SectionAt(s, i).value.titleStart ==> IsSpace(s[k])
    ensures SectionAt(s, i).value.end == |s| || OccursAt(s, "###", SectionAt(s, i).value.end)
    ensures forall k :: SectionAt(s, i).value.titleStart < k < SectionAt(s, i).value.end ==> !OccursAt(s, "###", k)
  {
    var j := SkipSpaces(s, i + 3);
    var e := ScanStamp(s, j).value;
    SkipSpacesRun(s, e.d + 1);
    var k := SkipSpaces(s, e.d + 1);
    if k < |s| {
      FindFirst(s, "###", k + 1);
    }
  }

  /** The section body: the whole text when no fenced block opens and closes, else the interior of the first one. */
  lemma BodyFirstFence(c: string)
    ensures FindFence(c, 0).None? ==> Body(c) == c && NoFenceIn(c, 0, |c| + 1)
    ensures FindFence(c, 0).Some? ==> exists p, q :: (p + 4 <= q <= |c|
      && OccursAt(c, "```\n", p) && OccursAt(c, "\n```", q) && Body(c) == c[p + 4..q]
      && NoFenceIn(c, 0, p) && (forall k :: p + 4 <= k < q ==> !OccursAt(c, "\n```", k)))
  {
    FindFenceFirst(c, 0);
    if FindFence(c, 0).Some? {
      var p := FindFence(c, 0).value;
      var q := FenceAt(c, p).value;
      FindFirst(c, "\n```", p + 4);
      assert Body(c) == c[p + 4..q];
    }
  }

  // ---------------------------------------------------------------------------
  // Cues, each kind matched left to right over the section body
  // A screen or voiceover cue is its marker and `:`, optional whitespace, a non-empty line, and
  // then every following non-empty line that does not start another marker. An editing note is
  // `{EDITING`, anything up to `}`, `:`, optional whitespace and one non-empty line.

  datatype CueKind = Screen | Voiceover | Editing

  /** A line that starts with one of these ends a screen or voiceover capture. */
  predicate StartsCue(s: string, i: nat) {
    OccursAt(s, "[SCREEN]", i) || OccursAt(s, "(VOICEOVER)", i) || OccursAt(s, "{EDITING", i)
  }

  /** The index just past the cue's marker and its colon, when the marker stands at `i`. */
  function AfterMarker(s: string, i: nat, kind: CueKind): Option<nat>
    requires i <= |s|
  {
    match kind
    case Screen => if OccursAt(s, "[SCREEN]:", i) then Some(i + 9) else None
    case Voiceover => if OccursAt(s, "(VOICEOVER):", i) then Some(i + 12) else None
    case Editing =>
      if !OccursAt(s, "{EDITING", i) then None
      else
        var j := NextChar(s, '}', i + 8);
        if j + 1 < |s| && s[j + 1] == ':' then Some(j + 2) else None
  }

  /** `(?:\n(?!...)[^\n]+)*` from the line end `e`: the following lines, while each is non-empty and starts no cue. */
  function Continue(s: string, e: nat): (r: nat)
    requires e <= |s|
    ensures e <= r <= |s|
    decreases |s| - e
  {
    if e + 1 < |s| && s[e] == '\n' && s[e + 1] != '\n' && !StartsCue(s, e + 1) then
      Continue(s, LineEnd(s, e + 1))
    else e
  }

  /** The greatest index in `lo..hi` that does not hold a newline. */
  function LastNonNewline(s: string, lo: nat, hi: nat): (r: Option<nat>)
    requires lo <= hi <= |s|
    ensures r.Some? ==> lo <= r.value < hi && s[r.value] != '\n'
    decreases hi
  {
    if hi == lo then None
    else if s[hi - 1] != '\n' then Some(hi - 1)
    else LastNonNewline(s, lo, hi - 1)
  }

  /** The captured group of one cue match; the match ends with it. */
  datatype Capture = Capture(start: nat, end: nat)

  /**
   * The cue pattern of `kind` tried at `i`. `\s*` takes all whitespace, newlines included.
   * When only whitespace is left, `\s*` gives characters back until `[^\n]+` can take one,
   * so the group is a single whitespace character.
   */
  function CueAt(s: string, i: nat, kind: CueKind): (r: Option<Capture>)
    requires i <= |s|
    ensures r.Some? ==> i < r.value.start < r.value.end <= |s|
  {
    match AfterMarker(s, i, kind)
    case None => None
    case Some(a) =>
      var k := SkipSpaces(s, a);
      if k < |s| then
        var e := LineEnd(s, k);
        Some(Capture(k, if kind == Editing then e else Continue(s, e)))
      else
        match LastNonNewline(s, a, k)
        case None => None
        case Some(w) => Some(Capture(w, w + 1))
  }

  /** The leftmost position at or after `from` where a cue of `kind` matches. */
  function FindCue(s: string, kind: CueKind, from: nat): (r: Option<nat>)
    requires from <= |s|
    ensures r.Some? ==> from <= r.value <= |s| && CueAt(s, r.value, kind).Some?
    decreases |s| - from
  {
    if CueAt(s, from, kind).Some? then Some(from)
    else if from == |s| then None
    else FindCue(s, kind, from + 1)
  }

  /** No position in `lo..hi` (and not past the end) starts a cue match of `kind`. */
  predicate NoCueIn(s: string, kind: CueKind, lo: nat, hi: nat) {
    forall k :: lo <= k < hi && k <= |s| ==> CueAt(s, k, kind).None?
  }

  /** `FindCue` reports the leftmost match: nothing matches before it, or anywhere when it finds none. */
  lemma {:induction false} FindCueFirst(s: string, kind: CueKind, from: nat)
    requires from <= |s|
    ensures NoCueIn(s, kind, from, FindCue(s, kind, from).GetOr(|s| + 1))
    decreases |s| - from, 1
  {
    if CueAt(s, from, kind).None? && from < |s| {
      FindCueNext(s, kind, from);
    }
  }

  /** The step of `FindCueFirst` past a position without a match. */
  lemma {:induction false} FindCueNext(s: string, kind: CueKind, from: nat)
    requires from < |s| && CueAt(s, from, kind).None?
    ensures NoCueIn(s, kind, from, FindCue(s, kind, from).GetOr(|s| + 1))
    decreases |s| - from, 0
  {
    FindCueFirst(s, kind, from + 1);
    assert FindCue(s, kind, from) == FindCue(s, kind, from + 1);
    NoCueBelow(s, kind, from, FindCue(s, kind, from + 1).GetOr(|s| + 1));
  }

  /** A position without a cue extends a range without one downwards. */
  lemma NoCueBelow(s: string, kind: CueKind, lo: nat, hi: nat)
    requires lo <= |s| && CueAt(s, lo, kind).None? && NoCueIn(s, kind, lo + 1, hi)
    ensures NoCueIn(s, kind, lo, hi)
  {
  }


  /** The capture `finditer` reports next, searching from `pos`. */
  function NextCue(s: string, kind: CueKind, pos: nat): (r: Option<Capture>)
    requires pos <= |s|
    ensures r.Some? ==> pos < r.value.start < r.value.end <= |s|
  {
    match FindCue(s, kind, pos)
    case None => None
    case Some(i) => CueAt(s, i, kind)
  }

  /** The stripped captures of the matches from `pos` on, empty ones dropped, in order. */
  function CuesFrom(s: string, kind: CueKind, pos: nat): seq<string>
    requires pos <= |s|
    decreases |s| - pos
  {
    match NextCue(s, kind, pos)
    case None => []
    case Some(c) => Kept(s, c) + CuesFrom(s, kind, c.end)
  }

  /** The stripped capture, as a list of zero or one cue. */
  function Kept(s: string, c: Capture): seq<string>
    requires c.start <= c.end <= |s|
  {
    var text := Strip(s[c.start..c.end]);
    if text != [] then [text] else []
  }

  lemma CuesFromStep(s: string, kind: CueKind, pos: nat, c: Capture)
    requires pos <= |s| && NextCue(s, kind, pos) == Some(c)
    ensures CuesFrom(s, kind, pos) == Kept(s, c) + CuesFrom(s, kind, c.end)
  {
  }

  /** The loop's step: the cues collected so far and those from the next match on are the same with that match's cue moved over. */
  lemma CuesFromAppend(s: string, kind: CueKind, pos: nat, c: Capture, before: seq<string>)
    requires pos <= |s| && NextCue(s, kind, pos) == Some(c)
    ensures before + CuesFrom(s, kind, pos) == (before + Kept(s, c)) + CuesFrom(s, kind, c.end)
  {
    CuesFromStep(s, kind, pos, c);
    var kept, after := Kept(s, c), CuesFrom(s, kind, c.end);
    var lhs, rhs := before + (kept + after), (before + kept) + after;
    forall i | 0 <= i < |lhs|
      ensures lhs[i] == rhs[i]
    {
    }
    assert lhs == rhs;
  }

  /** One `finditer` loop of `_parse_section_content`. */
  method CollectCues(content: string, kind: CueKind) returns (cues: seq<string>)
    ensures cues == CuesFrom(content, kind, 0)
  {
    cues := [];
    var pos := 0;
    while NextCue(content, kind, pos).Some?
      invariant pos <= |content|
      invariant cues + CuesFrom(content, kind, pos) == CuesFrom(content, kind, 0)
      decreases |content| - pos
    {
      var c := NextCue(content, kind, pos).value;
      CuesFromAppend(content, kind, pos, c, cues);
      ghost var before := cues;
      var text := Strip(content[c.start..c.end]);
      if text != [] {
        cues := cues + [text];
      }
      assert cues == before + Kept(content, c);
      pos := c.end;
    }
  }

  /** `_parse_section_content`: the screen descriptions, voiceover lines and editing notes. */
  method ParseSectionContent(content: string) returns (screen: seq<string>, voiceover: seq<string>, editing: seq<string>)
    ensures screen == CuesFrom(content, Screen, 0)
    ensures voiceover == CuesFrom(content, Voiceover, 0)
    ensures editing == CuesFrom(content, Editing, 0)
  {
    screen := CollectCues(content, Screen);
    voiceover := CollectCues(content, Voiceover);
    editing := CollectCues(content, Editing);
  }

  /** The continuation stops at a line end that no further line extends, and every line it took starts no cue. */
  lemma {:induction false} ContinueStops(s: string, e: nat)
    requires e <= |s|
    ensures Continue(s, e) == e || (e < |s| && s[e] == '\n')
    ensures !(Continue(s, e) + 1 < |s| && s[Continue(s, e)] == '\n' && s[Continue(s, e) + 1] != '\n' && !StartsCue(s, Continue(s, e) + 1))
    ensures forall k :: e <= k < Continue(s, e) && s[k] == '\n' ==> k + 1 < |s| && s[k + 1] != '\n' && !StartsCue(s, k + 1)
    decreases |s| - e
  {
    if e + 1 < |s| && s[e] == '\n' && s[e + 1] != '\n' && !StartsCue(s, e + 1) {
      var l := LineEnd(s, e + 1);
      NextCharRun(s, '\n', e + 1);
      ContinueStops(s, l);
    }
  }

  /** An editing capture lies within one line. */
  lemma EditingCaptureOneLine(s: string, i: nat)
    requires i <= |s| && CueAt(s, i, Editing).Some?
    ensures '\n' !in s[CueAt(s, i, Editing).value.start..CueAt(s, i, Editing).value.end]
  {
    var a := AfterMarker(s, i, Editing).value;
    var k := SkipSpaces(s, a);
    if k < |s| {
      NextCharRun(s, '\n', k);
    }
  }

  /** Every collected cue is non-empty and has no surrounding whitespace. */
  lemma {:induction false} CuesStripped(s: string, kind: CueKind, pos: nat)
    requires pos <= |s|
    ensures forall k :: 0 <= k < |CuesFrom(s, kind, pos)| ==> CuesFrom(s, kind, pos)[k] != [] && IsStripped(CuesFrom(s, kind, pos)[k])
    decreases |s| - pos
  {
    match NextCue(s, kind, pos)
    case None =>
    case Some(c) =>
      CuesFromStep(s, kind, pos, c);
      CuesStripped(s, kind, c.end);
      var kept, rest := Kept(s, c), CuesFrom(s, kind, c.end);
      forall k | 0 <= k < |kept + rest|
        ensures (kept + rest)[k] != [] && IsStripped((kept + rest)[k])
      {
        if k >= |kept| {
          assert (kept + rest)[k] == rest[k - |kept|];
        }
      }
  }

  /** Editing notes never contain a newline. */
  lemma {:induction false} EditingNotesOneLine(s: string, pos: nat)
    requires pos <= |s|
    ensures forall k :: 0 <= k < |CuesFrom(s, Editing, pos)| ==> '\n' !in CuesFrom(s, Editing, pos)[k]
    decreases |s| - pos
  {
    match NextCue(s, Editing, pos)
    case None =>
    case Some(c) =>
      CuesFromStep(s, Editing, pos, c);
      EditingNotesOneLine(s, c.end);
      EditingCaptureOneLine(s, FindCue(s, Editing, pos).value);
      if '\n' in Strip(s[c.start..c.end]) {
        StripKeepsChars(s[c.start..c.end], '\n');
      }
  }

  // ---------------------------------------------------------------------------
  // Segments

  /** The body of `parse`'s `try` block for one section: a segment, or the error that makes `parse` skip it. */
  function SegmentOf(sec: Section): (r: Result<Segment>)
    ensures r.Err? <==> ParseTimestamp(sec.timestampStr).Err?
    ensures r.Ok? ==> r.value.title == sec.title && r.value.startTime == ParseTimestamp(sec.timestampStr).value.start
                      && r.value.endTime == ParseTimestamp(sec.timestampStr).value.end
  {
    match ParseTimestamp(sec.timestampStr)
    case Err(msg) => Err(msg)
    case Ok(t) =>
      Ok(Segment(t.start, t.end, sec.title,
                 CuesFrom(sec.content, Screen, 0), CuesFrom(sec.content, Voiceover, 0), CuesFrom(sec.content, Editing, 0)))
  }

  /** The outcome of the `try` block for each section, in section order. */
  function SegmentResults(secs: seq<Section>): (r: seq<Result<Segment>>)
    ensures |r| == |secs| && forall k :: 0 <= k < |secs| ==> r[k] == SegmentOf(secs[k])
  {
    if |secs| == 0 then []
    else SegmentResults(secs[..|secs| - 1]) + [SegmentOf(secs[|secs| - 1])]
  }

  lemma SegmentResultsStep(secs: seq<Section>, i: nat)
    requires i < |secs|
    ensures SegmentResults(secs[..i + 1]) == SegmentResults(secs[..i]) + [SegmentOf(secs[i])]
  {
    assert secs[..i + 1][..i] == secs[..i];
  }

  /** The body of `parse`'s `try` block for one section, run on the section record. */
  method SegmentFor(sec: Section) returns (r: Result<Segment>)
    ensures r == SegmentOf(sec)
  {
    match ParseTimestamp(sec.timestampStr)
    case Err(msg) =>
      r := Err(msg);
    case Ok(t) =>
      var screen, voiceover, editing := ParseSectionContent(sec.content);
      r := Ok(Segment(t.start, t.end, sec.title, screen, voiceover, editing));
  }

  /** `parse`'s loop over the extracted sections: the segments of the sections whose `try` block succeeds. */
  method SegmentsFor(sections: seq<Section>) returns (segments: seq<Segment>)
    ensures segments == Oks(SegmentResults(sections))
  {
    segments := [];
    var i := 0;
    while i < |sections|
      invariant i <= |sections|
      invariant segments == Oks(SegmentResults(sections[..i]))
    {
      var r := SegmentFor(sections[i]);
      SegmentResultsStep(sections, i);
      OksSnoc(SegmentResults(sections[..i]), r);
      if r.Ok? {
        segments := segments + [r.value];
      }
      i := i + 1;
    }
    assert sections[..i] == sections;
  }

  /** What `parse` computes from the raw text: the segments of the sections that parse, in order. */
  function ParseScript(text: string): seq<Segment> {
    Oks(SegmentResults(SectionsFrom(text, 0)))
  }

  /** The section's timestamp has no group longer than `int()` converts. */
  predicate SectionFits(sec: Section) {
    StampAt(sec.timestampStr, 0).Some? && Fits(StampAt(sec.timestampStr, 0).value)
  }

  /**
   * `parse` skips a section exactly when a group of its timestamp is longer than `int()`
   * converts; when no section's is, there is one segment per `###` section, in order.
   */
  lemma ParseScriptKeepsAll(text: string)
    ensures forall k :: 0 <= k < |SectionsFrom(text, 0)| ==>
      (SegmentOf(SectionsFrom(text, 0)[k]).Ok? <==> SectionFits(SectionsFrom(text, 0)[k]))
    ensures (forall k :: 0 <= k < |SectionsFrom(text, 0)| ==> SectionFits(SectionsFrom(text, 0)[k])) ==>
      |ParseScript(text)| == |SectionsFrom(text, 0)|
      && forall k :: 0 <= k < |SectionsFrom(text, 0)| ==> Ok(ParseScript(text)[k]) == SegmentOf(SectionsFrom(text, 0)[k])
  {
    var secs := SectionsFrom(text, 0);
    assert forall k :: 0 <= k < |secs| ==> (SegmentOf(secs[k]).Ok? <==> SectionFits(secs[k])) by {
      SectionsParse(text, 0);
      forall k | 0 <= k < |secs|
        ensures SegmentOf(secs[k]).Ok? <==> SectionFits(secs[k])
      {
        ReadFieldsOk(StampAt(secs[k].timestampStr, 0).value);
      }
    }
    if forall k :: 0 <= k < |secs| ==> SectionFits(secs[k]) {
      OksAll(SegmentResults(secs));
    }
  }

  /** A section whose first minute field has 4301 digits is skipped whatever its title and content. */
  lemma OversizedSectionSkipped(sec: Section, g: Stamp)
    requires g == Stamp(seq(IntMaxStrDigits + 1, _ => '1'), "00", "0", "10", 0)
    requires sec.timestampStr == StampText(g)
    ensures SegmentOf(sec) == Err(IntDigitsError(IntMaxStrDigits + 1))
  {
    assert AllDigits(g.startMin);
    ParseStampText(g);
  }

  /** `get_total_duration`: 0 without segments, otherwise the largest end time. */
  function MaxEndTime(segs: seq<Segment>): (r: nat)
    ensures forall k :: 0 <= k < |segs| ==> segs[k].endTime <= r
    ensures |segs| == 0 ==> r == 0
    ensures |segs| > 0 ==> exists k :: 0 <= k < |segs| && segs[k].endTime == r
  {
    if |segs| == 0 then 0
    else
      var m := MaxEndTime(segs[1..]);
      assert forall k :: 1 <= k < |segs| ==> segs[k] == segs[1..][k - 1];
      if segs[0].endTime >= m then segs[0].endTime else m
  }

  /**
   * The smallest magnitude `float()` refuses: 2^1024 - 2^970, which rounds to 2^1024 at 53
   * bits, past the largest double.
   */
  const FloatOverflowBound: nat := 0xfffffffffffffc00_0000000000000000_0000000000000000_0000000000000000_0000000000000000_0000000000000000_0000000000000000_0000000000000000_0000000000000000_0000000000000000_0000000000000000_0000000000000000_0000000000000000_0000000000000000_0000000000000000_0000000000000000

  /** The `OverflowError` a float format spec raises on an integer out of double range. */
  const FloatOverflowError: string := "int too large to convert to float"

  /** An integer a float format spec (`:.1f`, `:.0f`) can print: it converts to a double. */
  predicate FloatConvertible(n: int) {
    n < FloatOverflowBound && -n < FloatOverflowBound
  }

  /** The start, end and duration of one segment convert to doubles. */
  predicate SegmentPrintable(seg: Segment) {
    FloatConvertible(seg.startTime) && FloatConvertible(seg.endTime) && FloatConvertible(seg.Duration())
  }

  /**
   * `print_summary` formats every segment's start, end and duration with float format specs.
   * It formats the total duration first, but the total is one of the end times
   * (`SummaryTotalPrintable`), and dividing it by 60 cannot overflow once it converts.
   */
  predicate SummaryPrintable(segs: seq<Segment>) {
    |segs| == 0 || (SummaryPrintable(segs[..|segs| - 1]) && SegmentPrintable(segs[|segs| - 1]))
  }

  /** The summary prints exactly when each segment's times do. */
  lemma {:induction false} SummaryPrintableEach(segs: seq<Segment>)
    ensures SummaryPrintable(segs) <==> forall k :: 0 <= k < |segs| ==> SegmentPrintable(segs[k])
  {
    if |segs| > 0 {
      var init := segs[..|segs| - 1];
      SummaryPrintableEach(init);
      assert forall k :: 0 <= k < |init| ==> init[k] == segs[k];
    }
  }

  /** The summary prints exactly when every start and end time is below the double range's bound. */
  lemma SummaryPrintableIff(segs: seq<Segment>)
    ensures SummaryPrintable(segs) <==>
      forall k :: 0 <= k < |segs| ==> segs[k].startTime < FloatOverflowBound && segs[k].endTime < FloatOverflowBound
  {
    SummaryPrintableEach(segs);
  }

  /** Where the segments print, so does their total duration. */
  lemma SummaryTotalPrintable(segs: seq<Segment>)
    requires SummaryPrintable(segs)
    ensures FloatConvertible(MaxEndTime(segs))
  {
    SummaryPrintableEach(segs);
    if |segs| > 0 {
      var k :| 0 <= k < |segs| && segs[k].endTime == MaxEndTime(segs);
      assert SegmentPrintable(segs[k]);
    }
  }

  /** A segment ending at the bound makes the summary raise. */
  lemma SummaryOverflows(segs: seq<Segment>, k: nat)
    requires k < |segs| && segs[k].endTime >= FloatOverflowBound
    ensures !SummaryPrintable(segs)
  {
    SummaryPrintableIff(segs);
  }

  /** The three parts `export_voiceover_script` contributes per segment: heading, narration, blank line. */
  function VoiceoverParts(segs: seq<Segment>): seq<string> {
    if |segs| == 0 then []
    else
      var last := segs[|segs| - 1];
      VoiceoverParts(segs[..|segs| - 1]) + ["## " + last.title, last.VoiceoverText(), ""]
  }

  /** Segment `k` owns parts `3k`, `3k+1` and `3k+2`, and nothing else is added. */
  lemma {:induction false} VoiceoverPartsLayout(segs: seq<Segment>)
    ensures |VoiceoverParts(segs)| == 3 * |segs|
    ensures forall k :: 0 <= k < |segs| ==>
      VoiceoverParts(segs)[3 * k] == "## " + segs[k].title
      && VoiceoverParts(segs)[3 * k + 1] == segs[k].VoiceoverText()
      && VoiceoverParts(segs)[3 * k + 2] == ""
  {
    if |segs| > 0 {
      var init := segs[..|segs| - 1];
      VoiceoverPartsLayout(init);
      assert forall k :: 0 <= k < |init| ==> init[k] == segs[k];
    }
  }

  /** A file the program would write: its path and its text. */
  datatype FileWrite = FileWrite(path: string, text: string)

  /** The parser object: the path and text of the script and the segments of the last `parse`. */
  class ScriptParser {
    var scriptPath: string
    var rawText: string
    var segments: seq<Segment>

    /** `__init__`; the file's text is passed in, since reading it is I/O. */
    constructor (scriptPath: string, rawText: string)
      ensures this.scriptPath == scriptPath && this.rawText == rawText && segments == []
    {
      this.scriptPath := scriptPath;
      this.rawText := rawText;
      segments := [];
    }

    /** `parse`: the segments are recomputed from the text, so a repeated call gives the same list. */
    method Parse() returns (result: seq<Segment>)
      modifies this
      ensures segments == ParseScript(rawText) && result == segments
      ensures rawText == old(rawText) && scriptPath == old(scriptPath)
    {
      var sections := ExtractSections(rawText);
      segments := SegmentsFor(sections);
      result := segments;
    }

    /** `get_total_duration` over the current segments. */
    function TotalDuration(): nat
      reads this
    {
      MaxEndTime(segments)
    }

    /**
     * `print_summary`: what it prints is left out; it raises `OverflowError` when a time of the
     * current segments is out of double range.
     */
    method PrintSummary() returns (r: Result<()>)
      ensures r.Ok? <==> SummaryPrintable(segments)
      ensures r.Err? ==> r.msg == FloatOverflowError
    {
      if !FloatConvertible(MaxEndTime(segments)) {
        if SummaryPrintable(segments) {
          SummaryTotalPrintable(segments);
        }
        return Err(FloatOverflowError);
      }
      var i := 0;
      while i < |segments|
        invariant i <= |segments|
        invariant SummaryPrintable(segments[..i])
      {
        var seg := segments[i];
        if !FloatConvertible(seg.startTime) || !FloatConvertible(seg.endTime) || !FloatConvertible(seg.Duration()) {
          SummaryPrintableEach(segments);
          return Err(FloatOverflowError);
        }
        assert segments[..i + 1][..i] == segments[..i];
        i := i + 1;
      }
      assert segments[..i] == segments;
      return Ok(());
    }

    /**
     * `export_voiceover_script`: the parts joined by newlines, and the file write that happens
     * when an output path is given and is not empty.
     */
    method ExportVoiceoverScript(outputPath: Option<string>) returns (fullText: string, write: Option<FileWrite>)
      ensures fullText == Join("\n", VoiceoverParts(segments))
      ensures write == (if outputPath.Some? && outputPath.value != "" then Some(FileWrite(outputPath.value, fullText)) else None)
    {
      var parts: seq<string> := [];
      var i := 0;
      while i < |segments|
        invariant i <= |segments|
        invariant parts == VoiceoverParts(segments[..i])
      {
        var seg := segments[i];
        assert segments[..i + 1][..i] == segments[..i];
        parts := parts + ["## " + seg.title];
        parts := parts + [seg.VoiceoverText()];
        parts := parts + [""];
        i := i + 1;
      }
      assert segments[..i] == segments;
      fullText := Join("\n", parts);
      write := if outputPath.Some? && outputPath.value != "" then Some(FileWrite(outputPath.value, fullText)) else None;
    }
  }
}

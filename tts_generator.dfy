/**
 * The text-to-speech front end: choosing the provider by its tag, the suffix each
 * provider gives its output file, the default file name of a voiceover, the batch over
 * (segment id, text) pairs, and the clean-up applied to the text before it is spoken.
 * The speech engines themselves are one oracle, `speak`, that says whether the engine
 * produced the file it was asked for.
 */
module TTS {
  import opened Wrappers
  import opened Text
  import opened Paths

  // ---------------------------------------------------------------------------
  // Text clean-up (`_clean_text_for_tts`)

  /** `re.sub(r'```.*?```', '', s, flags=re.DOTALL)`, scanning from `i`: each fenced span, newlines included, is deleted. */
  function StripFenced(s: string, i: nat): string
    requires i <= |s|
    decreases |s| - i
  {
    if i == |s| then []
    else if OccursAt(s, "```", i) && Find(s, "```", i + 3) != -1 then
      StripFenced(s, Find(s, "```", i + 3) + 3)
    else [s[i]] + StripFenced(s, i + 1)
  }

  /** The first position at or after `k` that holds a backtick or a newline, or |s|. */
  function TickOrNewline(s: string, k: nat): (j: nat)
    requires k <= |s|
    ensures k <= j <= |s| && (j < |s| ==> s[j] == '`' || s[j] == '\n')
    decreases |s| - k
  {
    if k == |s| || s[k] == '`' || s[k] == '\n' then k else TickOrNewline(s, k + 1)
  }

  lemma {:induction false} TickOrNewlineRun(s: string, k: nat)
    requires k <= |s|
    ensures forall m :: k <= m < TickOrNewline(s, k) ==> s[m] != '`' && s[m] != '\n'
    decreases |s| - k
  {
    if k < |s| && s[k] != '`' && s[k] != '\n' {
      TickOrNewlineRun(s, k + 1);
    }
  }

  /** `re.sub(r'`.*?`', '', s)`, scanning from `i`: a backtick span that stays on one line is deleted. */
  function StripTicks(s: string, i: nat): string
    requires i <= |s|
    decreases |s| - i
  {
    if i == |s| then []
    else if s[i] == '`' && TickOrNewline(s, i + 1) < |s| && s[TickOrNewline(s, i + 1)] == '`' then
      StripTicks(s, TickOrNewline(s, i + 1) + 1)
    else [s[i]] + StripTicks(s, i + 1)
  }

  /** Deleting fenced spans adds no character. */
  lemma {:induction false} FencedKeepsChars(s: string, i: nat, ch: char)
    requires i <= |s| && ch in StripFenced(s, i)
    ensures ch in s[i..]
    decreases |s| - i
  {
    if OccursAt(s, "```", i) && Find(s, "```", i + 3) != -1 {
      var j := Find(s, "```", i + 3) + 3;
      FencedKeepsChars(s, j, ch);
      var k :| j <= k < |s| && s[k] == ch;
      assert s[i..][k - i] == ch;
    } else if ch != s[i] {
      FencedKeepsChars(s, i + 1, ch);
      var k :| i + 1 <= k < |s| && s[k] == ch;
      assert s[i..][k - i] == ch;
    }
  }

  /** Deleting backtick spans adds no character. */
  lemma {:induction false} TicksKeepChars(s: string, i: nat, ch: char)
    requires i <= |s| && ch in StripTicks(s, i)
    ensures ch in s[i..]
    decreases |s| - i
  {
    var j := TickOrNewline(s, i + 1);
    if s[i] == '`' && j < |s| && s[j] == '`' {
      TicksKeepChars(s, j + 1, ch);
      var k :| j + 1 <= k < |s| && s[k] == ch;
      assert s[i..][k - i] == ch;
    } else if ch != s[i] {
      TicksKeepChars(s, i + 1, ch);
      var k :| i + 1 <= k < |s| && s[k] == ch;
      assert s[i..][k - i] == ch;
    }
  }

  /** The words of `s`, joined by single spaces. */
  function Collapse(s: string): string {
    Join(" ", Words(s, 0))
  }

  /** `_clean_text_for_tts`: emphasis markers removed, code spans deleted, whitespace collapsed. */
  function CleanText(text: string): string {
    var t1 := ReplaceAll(ReplaceAll(text, "**", ""), "*", "");
    var t2 := ReplaceAll(ReplaceAll(t1, "__", ""), "_", "");
    var t3 := StripFenced(t2, 0);
    var t4 := StripTicks(t3, 0);
    Collapse(t4)
  }

  /** Where no fence opens, the text is copied. */
  lemma {:induction false} FencedCopies(s: string, i: nat, k: nat)
    requires i <= k <= |s| && forall m :: i <= m < k ==> !OccursAt(s, "```", m)
    ensures StripFenced(s, i) == s[i..k] + StripFenced(s, k)
    decreases k - i
  {
    if i < k {
      FencedCopies(s, i + 1, k);
      assert StripFenced(s, i) == [s[i]] + StripFenced(s, i + 1);
      assert s[i..k] == [s[i]] + s[i + 1..k];
      assert ([s[i]] + s[i + 1..k]) + StripFenced(s, k) == [s[i]] + (s[i + 1..k] + StripFenced(s, k));
    }
  }

  /** A character absent from a slice is absent from each of its positions. */
  lemma AbsentFromSlice(s: string, lo: nat, hi: nat, c: char)
    requires lo <= hi <= |s| && c !in s[lo..hi]
    ensures forall j :: lo <= j < hi ==> s[j] != c
  {
    forall j | lo <= j < hi
      ensures s[j] != c
    {
      assert s[lo..hi][j - lo] == s[j];
    }
  }

  /** The pieces of a text with two marked positions. */
  lemma Pieces(s: string, a: string, x: string, m: string, b: string)
    requires s == a + x + m + x + b
    ensures s[0..|a|] == a && s[|a|..|a| + |x|] == x && s[|a| + |x|..|a| + |x| + |m|] == m
    ensures s[|a| + |x| + |m|..|a| + 2 * |x| + |m|] == x && s[|a| + 2 * |x| + |m|..] == b
  {
  }

  /** Without a backtick from `i` on, the rest of the text is copied. */
  lemma FencedCopyRest(s: string, i: nat)
    requires i <= |s| && forall m :: i <= m < |s| ==> s[m] != '`'
    ensures StripFenced(s, i) == s[i..]
  {
    NoFenceWithoutTick(s, i, |s|);
    FencedCopies(s, i, |s|);
    assert s[i..|s|] + [] == s[i..];
  }

  /** A fence at `p` whose closing fence is at `q` is skipped with its contents. */
  lemma FencedSkip(s: string, p: nat, q: nat)
    requires p < |s| && OccursAt(s, "```", p) && Find(s, "```", p + 3) == q
    ensures StripFenced(s, p) == StripFenced(s, q + 3)
  {
  }

  /** Without a backtick in `[lo, hi)`, no fence opens there. */
  lemma NoFenceWithoutTick(s: string, lo: nat, hi: nat)
    requires hi <= |s| && forall j :: lo <= j < hi ==> s[j] != '`'
    ensures forall m :: lo <= m < hi ==> !OccursAt(s, "```", m)
  {
    forall m | lo <= m < hi
      ensures !OccursAt(s, "```", m)
    {
      assert s[m + 0] != "```"[0];
    }
  }

  /** The fence at `q` closes the one at `p` when no backtick stands between them. */
  lemma ClosingFence(s: string, p: nat, q: nat)
    requires p + 3 <= q && OccursAt(s, "```", q)
    requires forall j :: p + 3 <= j < q ==> s[j] != '`'
    ensures Find(s, "```", p + 3) == q
  {
    NoFenceWithoutTick(s, p + 3, q);
    FindFirst(s, "```", p + 3);
  }

  /** Fences at `p` and `q` with no backtick elsewhere before the end: the span from `p` to `q + 3` is deleted. */
  lemma FenceDeletedAt(s: string, p: nat, q: nat)
    requires p + 3 <= q && q + 3 <= |s| && OccursAt(s, "```", p) && OccursAt(s, "```", q)
    requires forall j :: 0 <= j < p ==> s[j] != '`'
    requires forall j :: p + 3 <= j < q ==> s[j] != '`'
    requires forall j :: q + 3 <= j < |s| ==> s[j] != '`'
    ensures StripFenced(s, 0) == s[0..p] + s[q + 3..]
  {
    NoFenceWithoutTick(s, 0, p);
    FencedCopies(s, 0, p);
    FenceSpanSkipped(s, p, q);
  }

  /** From an opening fence whose closing fence is followed by no backtick, only the rest after it is kept. */
  lemma FenceSpanSkipped(s: string, p: nat, q: nat)
    requires p + 3 <= q && q + 3 <= |s| && OccursAt(s, "```", p) && OccursAt(s, "```", q)
    requires forall j :: p + 3 <= j < q ==> s[j] != '`'
    requires forall j :: q + 3 <= j < |s| ==> s[j] != '`'
    ensures StripFenced(s, p) == s[q + 3..]
  {
    ClosingFence(s, p, q);
    FencedSkip(s, p, q);
    FencedCopyRest(s, q + 3);
  }

  /** A fenced span is deleted with its fences, whatever lines it spans. */
  lemma FenceDeleted(a: string, m: string, b: string)
    requires '`' !in a && '`' !in m && '`' !in b
    ensures StripFenced(a + "```" + m + "```" + b, 0) == a + b
  {
    var s := a + "```" + m + "```" + b;
    var p := |a|;
    var q := p + 3 + |m|;
    Pieces(s, a, "```", m, b);
    AbsentFromSlice(s, 0, p, '`');
    AbsentFromSlice(s, p + 3, q, '`');
    AbsentFromSlice(s, q + 3, |s|, '`');
    OccursAtSlice(s, "```", p);
    OccursAtSlice(s, "```", q);
    FenceDeletedAt(s, p, q);
  }

  /** Where no backtick stands, the text is copied. */
  lemma {:induction false} TicksCopy(s: string, i: nat, k: nat)
    requires i <= k <= |s| && forall m :: i <= m < k ==> s[m] != '`'
    ensures StripTicks(s, i) == s[i..k] + StripTicks(s, k)
    decreases k - i
  {
    if i < k {
      TicksCopy(s, i + 1, k);
      assert StripTicks(s, i) == [s[i]] + StripTicks(s, i + 1);
      assert s[i..k] == [s[i]] + s[i + 1..k];
      assert ([s[i]] + s[i + 1..k]) + StripTicks(s, k) == [s[i]] + (s[i + 1..k] + StripTicks(s, k));
    }
  }

  /** Without a backtick from `i` on, the rest of the text is copied. */
  lemma TicksCopyRest(s: string, i: nat)
    requires i <= |s| && forall m :: i <= m < |s| ==> s[m] != '`'
    ensures StripTicks(s, i) == s[i..]
  {
    TicksCopy(s, i, |s|);
    assert s[i..|s|] + [] == s[i..];
  }

  /** The first backtick or newline after an opening backtick, when the text up to it is given. */
  lemma TickOrNewlineAt(s: string, k: nat, j: nat)
    requires k <= j < |s| && (s[j] == '`' || s[j] == '\n')
    requires forall m :: k <= m < j ==> s[m] != '`' && s[m] != '\n'
    ensures TickOrNewline(s, k) == j
  {
    TickOrNewlineRun(s, k);
  }

  /** Backticks at `p` and `q`, none elsewhere and no newline between them: the span is deleted. */
  lemma TickSpanDeletedAt(s: string, p: nat, q: nat)
    requires p < q < |s| && s[p] == '`' && s[q] == '`'
    requires forall j :: 0 <= j < p ==> s[j] != '`'
    requires forall j :: p < j < q ==> s[j] != '`' && s[j] != '\n'
    requires forall j :: q < j < |s| ==> s[j] != '`'
    ensures StripTicks(s, 0) == s[0..p] + s[q + 1..]
  {
    TicksCopy(s, 0, p);
    TickOrNewlineAt(s, p + 1, q);
    assert StripTicks(s, p) == StripTicks(s, q + 1);
    TicksCopyRest(s, q + 1);
  }

  /** A backtick span on one line is deleted with its backticks. */
  lemma TickSpanDeleted(a: string, m: string, b: string)
    requires '`' !in a && '`' !in m && '`' !in b && '\n' !in m
    ensures StripTicks(a + "`" + m + "`" + b, 0) == a + b
  {
    var s := a + "`" + m + "`" + b;
    var p := |a|;
    var q := p + 1 + |m|;
    Pieces(s, a, "`", m, b);
    AbsentFromSlice(s, 0, p, '`');
    AbsentFromSlice(s, p + 1, q, '`');
    AbsentFromSlice(s, p + 1, q, '\n');
    AbsentFromSlice(s, q + 1, |s|, '`');
    assert s[p] == s[p..p + 1][0];
    assert s[q] == s[q..q + 1][0];
    TickSpanDeletedAt(s, p, q);
  }

  /** A text is what precedes `p`, the character at `p`, what lies between, the character at `q` and the rest. */
  lemma Around(s: string, p: nat, q: nat)
    requires p < q < |s|
    ensures s == s[0..p] + ([s[p]] + (s[p + 1..q] + ([s[q]] + s[q + 1..])))
  {
    assert s[q..] == [s[q]] + s[q + 1..];
    assert s[p + 1..] == s[p + 1..q] + s[q..];
    assert s[p..] == [s[p]] + s[p + 1..];
    assert s == s[0..p] + s[p..];
  }

  /** A backtick that no backtick closes on its line is kept. */
  lemma TickKept(s: string, i: nat)
    requires i < |s| && (TickOrNewline(s, i + 1) == |s| || s[TickOrNewline(s, i + 1)] != '`')
    ensures StripTicks(s, i) == [s[i]] + StripTicks(s, i + 1)
  {
  }

  /** Up to the opening backtick the text is copied, and the backtick is kept when a newline comes first. */
  lemma KeptOpening(s: string, p: nat, n: nat)
    requires p < n < |s| && s[p] == '`' && s[n] == '\n'
    requires forall j :: 0 <= j < p ==> s[j] != '`'
    requires forall j :: p < j < n ==> s[j] != '`' && s[j] != '\n'
    ensures StripTicks(s, 0) == s[0..p] + ([s[p]] + StripTicks(s, p + 1))
  {
    TicksCopy(s, 0, p);
    TickOrNewlineAt(s, p + 1, n);
    TickKept(s, p);
  }

  /** After the opening backtick, the text and a closing backtick with no later backtick are copied. */
  lemma KeptClosing(s: string, p: nat, q: nat)
    requires p < q < |s| && s[q] == '`'
    requires forall j :: p < j < q ==> s[j] != '`'
    requires forall j :: q < j < |s| ==> s[j] != '`'
    ensures StripTicks(s, p + 1) == s[p + 1..q] + ([s[q]] + s[q + 1..])
  {
    TicksCopy(s, p + 1, q);
    TickKept(s, q);
    TicksCopyRest(s, q + 1);
  }

  /** Backticks at `p` and `q`, none elsewhere, a newline between them: nothing is deleted. */
  lemma TickSpanKeptAt(s: string, p: nat, q: nat, n: nat)
    requires p < n < q < |s| && s[p] == '`' && s[q] == '`' && s[n] == '\n'
    requires forall j :: 0 <= j < p ==> s[j] != '`'
    requires forall j :: p < j < q ==> s[j] != '`'
    requires forall j :: p < j < n ==> s[j] != '\n'
    requires forall j :: q < j < |s| ==> s[j] != '`'
    ensures StripTicks(s, 0) == s
  {
    KeptOpening(s, p, n);
    KeptClosing(s, p, q);
    Around(s, p, q);
  }

  /** A backtick span that crosses a line end is kept, backticks included. */
  lemma TickSpanAcrossLinesKept(a: string, m: string, b: string)
    requires '`' !in a && '`' !in m && '`' !in b && '\n' in m
    ensures StripTicks(a + "`" + m + "`" + b, 0) == a + "`" + m + "`" + b
  {
    var s := a + "`" + m + "`" + b;
    var p := |a|;
    var q := p + 1 + |m|;
    Pieces(s, a, "`", m, b);
    AbsentFromSlice(s, 0, p, '`');
    AbsentFromSlice(s, p + 1, q, '`');
    AbsentFromSlice(s, q + 1, |s|, '`');
    FirstNewlineWithin(s, p + 1, q, m);
    assert s[p] == s[p..p + 1][0];
    assert s[q] == s[q..q + 1][0];
    TickSpanKeptAt(s, p, q, p + 1 + NextChar(m, '\n', 0));
  }

  /** The first line end of a slice that holds one, as a position of the whole text. */
  lemma FirstNewlineWithin(s: string, lo: nat, hi: nat, m: string)
    requires lo <= hi <= |s| && s[lo..hi] == m && '\n' in m
    ensures lo + NextChar(m, '\n', 0) < hi && s[lo + NextChar(m, '\n', 0)] == '\n'
    ensures forall j :: lo <= j < lo + NextChar(m, '\n', 0) ==> s[j] != '\n'
  {
    var n := NextChar(m, '\n', 0);
    NextCharRun(m, '\n', 0);
    AbsentFromSlice(m, 0, n, '\n');
    forall j | lo <= j < lo + n
      ensures s[j] != '\n'
    {
      assert m[j - lo] == s[j];
    }
    assert m[n] == s[lo + n];
  }

  /** Text in which every whitespace character is a single space between two non-space characters. */
  predicate Spaced(r: string) {
    IsStripped(r)
    && (forall k :: 0 <= k < |r| && IsSpace(r[k]) ==> r[k] == ' ')
    && (forall k :: 0 <= k < |r| - 1 ==> !(IsSpace(r[k]) && IsSpace(r[k + 1])))
  }

  /** Words joined by single spaces are spaced. */
  lemma {:induction false} JoinWordsSpaced(ws: seq<string>)
    requires forall w :: w in ws ==> w != [] && forall k :: 0 <= k < |w| ==> !IsSpace(w[k])
    ensures Spaced(Join(" ", ws))
    decreases |ws|
  {
    if |ws| >= 2 {
      var w := ws[0];
      var rest := Join(" ", ws[1..]);
      JoinWordsSpaced(ws[1..]);
      var r := w + " " + rest;
      assert Join(" ", ws) == r;
      assert ws[1] in ws;
      assert rest != [] && !IsSpace(rest[0]) by {
        if |ws| == 2 {
          assert rest == ws[1];
        } else {
          assert rest == ws[1] + " " + Join(" ", ws[2..]);
        }
      }
      forall k | 0 <= k < |r| && IsSpace(r[k])
        ensures r[k] == ' '
      {
        if k > |w| {
          assert r[k] == rest[k - |w| - 1];
        }
      }
      forall k | 0 <= k < |r| - 1
        ensures !(IsSpace(r[k]) && IsSpace(r[k + 1]))
      {
        if k + 1 < |w| {
          assert r[k] == w[k] && r[k + 1] == w[k + 1];
        } else if k + 1 == |w| {
          assert r[k] == w[k];
        } else if k == |w| {
          assert r[k + 1] == rest[0];
        } else {
          assert r[k] == rest[k - |w| - 1] && r[k + 1] == rest[k - |w|];
        }
      }
      assert r[0] == w[0];
      assert r[|r| - 1] == rest[|rest| - 1];
    }
  }

  /** Every character of a word is a character of the text. */
  lemma {:induction false} WordsKeepChars(s: string, i: nat, ch: char)
    requires i <= |s|
    requires exists w :: w in Words(s, i) && ch in w
    ensures ch in s
    decreases |s| - i
  {
    var a := SkipSpaces(s, i);
    if a < |s| {
      var b := SkipNonSpaces(s, a);
      var w :| w in Words(s, i) && ch in w;
      assert Words(s, i) == [s[a..b]] + Words(s, b);
      if w == s[a..b] {
        var k :| 0 <= k < |w| && w[k] == ch;
        assert s[a + k] == ch;
      } else {
        WordsKeepChars(s, b, ch);
      }
    }
  }

  /** Collapsing keeps no character but the space that the text did not have. */
  lemma CollapseKeepsChars(s: string, ch: char)
    requires ch in Collapse(s) && ch != ' '
    ensures ch in s
  {
    JoinKeepsChars(" ", Words(s, 0), ch);
    var k :| 0 <= k < |Words(s, 0)| && ch in Words(s, 0)[k];
    assert Words(s, 0)[k] in Words(s, 0);
    WordsKeepChars(s, 0, ch);
  }

  /**
   * The cleaned text has no `*` and no `_`, no leading or trailing whitespace, no newline,
   * and its words are separated by exactly one space.
   */
  lemma CleanTextShape(text: string)
    ensures '*' !in CleanText(text) && '_' !in CleanText(text)
    ensures Spaced(CleanText(text)) && '\n' !in CleanText(text)
  {
    var t1 := ReplaceAll(ReplaceAll(text, "**", ""), "*", "");
    ReplaceCharRemoves(ReplaceAll(text, "**", ""), '*', "");
    var t2 := ReplaceAll(ReplaceAll(t1, "__", ""), "_", "");
    ReplaceCharRemoves(ReplaceAll(t1, "__", ""), '_', "");
    var t3 := StripFenced(t2, 0);
    var t4 := StripTicks(t3, 0);
    if '*' in t3 { FencedKeepsChars(t2, 0, '*'); }
    if '_' in t3 { FencedKeepsChars(t2, 0, '_'); }
    if '*' in t4 { TicksKeepChars(t3, 0, '*'); }
    if '_' in t4 { TicksKeepChars(t3, 0, '_'); }
    if '*' in Collapse(t4) {
      CollapseKeepsChars(t4, '*');
    }
    if '_' in Collapse(t4) {
      CollapseKeepsChars(t4, '_');
    }
    WordsAreWords(t4, 0);
    JoinWordsSpaced(Words(t4, 0));
  }

  // ---------------------------------------------------------------------------
  // Providers

  /** The three speech engines with the settings each keeps. */
  datatype Provider =
    | SystemTTS(voice: string, rate: int)
    | ElevenLabsTTS(apiKey: string, voiceId: string)
    | GTTSProvider(lang: string, slow: bool)
  {
    /** The tag that selects this engine. */
    function Tag(): string {
      match this
      case SystemTTS(_, _) => "system"
      case ElevenLabsTTS(_, _) => "elevenlabs"
      case GTTSProvider(_, _) => "gtts"
    }

    /** The suffix the engine gives the file it writes, whatever suffix it was asked for. */
    function AudioSuffix(): (suf: string)
      ensures PlainSuffix(suf)
    {
      if SystemTTS? then ".aiff" else ".mp3"
    }
  }

  /** The keyword arguments handed on to the provider's constructor; `None` is an argument not passed. */
  datatype ProviderArgs = ProviderArgs(
    voice: Option<string>, rate: Option<int>,
    apiKey: Option<string>, voiceId: Option<string>,
    lang: Option<string>, slow: Option<bool>)

  /** No keyword argument at all, which is how the pipeline builds its generator. */
  const NoArgs := ProviderArgs(None, None, None, None, None, None)

  /**
   * What the constructors read from outside: the `ELEVEN_API_KEY` variable and which libraries
   * import; `moviepyError` is the text of the `ImportError` MoviePy's older import layout raises
   * after the current one failed, `None` when one of them loads.
   */
  datatype Environment = Environment(elevenApiKey: Option<string>, elevenlabsInstalled: bool, gttsInstalled: bool,
                                     moviepyError: Option<string>)

  const DefaultVoice := "Alex"
  const DefaultRate := 180
  const DefaultVoiceId := "21m00Tcm4TlvDq8ikWAM"
  const DefaultLang := "en"

  /** `'system'`, the provider the generator uses when none is named. */
  const DefaultProviderTag := "system"
  const DefaultOutputDir := "output/audio"

  /** Python's `api_key or os.getenv(...)`: an empty key counts as none. */
  function ApiKey(args: ProviderArgs, env: Environment): Option<string> {
    if args.apiKey.Some? && args.apiKey.value != "" then args.apiKey
    else if env.elevenApiKey.Some? && env.elevenApiKey.value != "" then env.elevenApiKey
    else None
  }

  /**
   * `TTSProvider` construction by tag: an unknown tag, a keyword the chosen constructor does
   * not take, a missing ElevenLabs key and a library that does not import all raise.
   */
  function MakeProvider(tag: string, args: ProviderArgs, env: Environment): Result<Provider> {
    if tag == "system" then
      if args.apiKey.Some? || args.voiceId.Some? || args.lang.Some? || args.slow.Some? then
        Err("SystemTTS got an unexpected keyword argument")
      else Ok(SystemTTS(args.voice.GetOr(DefaultVoice), args.rate.GetOr(DefaultRate)))
    else if tag == "elevenlabs" then
      if args.voice.Some? || args.rate.Some? || args.lang.Some? || args.slow.Some? then
        Err("ElevenLabsTTS got an unexpected keyword argument")
      else if ApiKey(args, env).None? then
        Err("ElevenLabs API key required (set ELEVEN_API_KEY env var)")
      else if !env.elevenlabsInstalled then
        Err("ElevenLabs package not installed: pip install elevenlabs")
      else Ok(ElevenLabsTTS(ApiKey(args, env).value, args.voiceId.GetOr(DefaultVoiceId)))
    else if tag == "gtts" then
      if args.voice.Some? || args.rate.Some? || args.apiKey.Some? || args.voiceId.Some? then
        Err("GTTSProvider got an unexpected keyword argument")
      else if !env.gttsInstalled then
        Err("gTTS package not installed: pip install gtts")
      else Ok(GTTSProvider(args.lang.GetOr(DefaultLang), args.slow.GetOr(false)))
    else Err("Unknown TTS provider: " + tag)
  }

  /** Only the three tags build a provider, and the provider built is the one the tag names. */
  lemma MakeProviderSpec(tag: string, args: ProviderArgs, env: Environment)
    ensures MakeProvider(tag, args, env).Ok? ==> MakeProvider(tag, args, env).value.Tag() == tag
    ensures tag != "system" && tag != "elevenlabs" && tag != "gtts" ==>
      MakeProvider(tag, args, env) == Err("Unknown TTS provider: " + tag)
  {
  }

  /** With no arguments the system engine always gets its defaults, and gTTS does whenever its library is installed. */
  lemma MakeProviderDefaults(env: Environment)
    ensures MakeProvider("system", NoArgs, env) == Ok(SystemTTS("Alex", 180))
    ensures MakeProvider("gtts", NoArgs, env).Ok? <==> env.gttsInstalled
    ensures env.gttsInstalled ==> MakeProvider("gtts", NoArgs, env) == Ok(GTTSProvider("en", false))
  {
  }

  /**
   * ElevenLabs always gets a non-empty key, the given one when it is non-empty; with no
   * arguments it fails exactly when the environment has no non-empty key or the library is missing.
   */
  lemma MakeProviderKey(args: ProviderArgs, env: Environment)
    ensures MakeProvider("elevenlabs", args, env).Ok? ==>
      MakeProvider("elevenlabs", args, env).value.apiKey != ""
      && (args.apiKey.Some? && args.apiKey.value != "" ==> MakeProvider("elevenlabs", args, env).value.apiKey == args.apiKey.value)
    ensures MakeProvider("elevenlabs", NoArgs, env).Ok? <==>
      env.elevenApiKey.Some? && env.elevenApiKey.value != "" && env.elevenlabsInstalled
  {
  }

  /**
   * A provider's `generate`: the requested path gets the engine's suffix, the engine is asked
   * to write that file, and the new path is returned. `speak` stands for the engine (the `say`
   * command, the ElevenLabs call and file write, gTTS's save) and says whether it succeeded.
   */
  function ProviderGenerate(p: Provider, text: string, path: string,
                            speak: (Provider, string, string) -> bool): (r: Result<string>)
    ensures r.Ok? ==> WithSuffix(path, p.AudioSuffix()) == r && speak(p, text, r.value)
  {
    match WithSuffix(path, p.AudioSuffix())
    case Err(e) => Err(e)
    case Ok(out) =>
      if speak(p, text, out) then Ok(out)
      else if p.SystemTTS? then Err("System TTS failed")
      else Err("TTS engine failed")
  }

  // ---------------------------------------------------------------------------
  // The generator

  /** `TTSGenerator`: where the files go and which engine writes them. */
  datatype TTSGenerator = TTSGenerator(outputDir: string, provider: Provider, providerName: string)

  /** `TTSGenerator(provider, output_dir, **provider_kwargs)`; fails as the provider's construction fails. */
  function NewTTSGenerator(tag: string, outputDir: string, args: ProviderArgs, env: Environment): (r: Result<TTSGenerator>)
    ensures r.Ok? <==> MakeProvider(tag, args, env).Ok?
    ensures r.Ok? ==>
      r.value.outputDir == outputDir && r.value.providerName == tag && r.value.provider.Tag() == tag
    ensures r.Err? ==> r == Err(MakeProvider(tag, args, env).msg)
  {
    MakeProviderSpec(tag, args, env);
    match MakeProvider(tag, args, env)
    case Err(e) => Err(e)
    case Ok(p) => Ok(TTSGenerator(outputDir, p, tag))
  }

  /** The file name a voiceover is asked for: the given one, or `voiceover_<id>.mp3` when it is missing or empty. */
  function VoiceoverName(segmentId: string, outputFilename: Option<string>): string {
    if outputFilename.None? || outputFilename.value == "" then "voiceover_" + segmentId + ".mp3"
    else outputFilename.value
  }

  /** `generate_voiceover`: the file name joined to the output directory, handed to the provider. */
  function GenerateVoiceover(g: TTSGenerator, text: string, segmentId: string, outputFilename: Option<string>,
                             speak: (Provider, string, string) -> bool): Result<string>
  {
    ProviderGenerate(g.provider, text, PathJoin(g.outputDir, VoiceoverName(segmentId, outputFilename)), speak)
  }

  /**
   * By default a voiceover for segment `id` is written to `<output_dir>/voiceover_<id>` with the
   * engine's suffix (`.aiff` for the system engine, `.mp3` otherwise), and it succeeds exactly
   * when the engine writes that file.
   */
  lemma VoiceoverDefaultPath(g: TTSGenerator, text: string, segmentId: string,
                             speak: (Provider, string, string) -> bool)
    requires '/' !in segmentId
    ensures GenerateVoiceover(g, text, segmentId, None, speak).Ok? <==>
      speak(g.provider, text, PathJoin(g.outputDir, "voiceover_" + segmentId + g.provider.AudioSuffix()))
    ensures GenerateVoiceover(g, text, segmentId, None, speak).Ok? ==>
      GenerateVoiceover(g, text, segmentId, None, speak).value
        == PathJoin(g.outputDir, "voiceover_" + segmentId + g.provider.AudioSuffix())
  {
    DefaultName(g.outputDir, "voiceover_" + segmentId, g.provider.AudioSuffix());
  }

  /** Re-suffixing `dir/stem.mp3` gives `dir/stem` with the new suffix. */
  lemma DefaultName(dir: string, stem: string, suf: string)
    requires '/' !in stem && stem != "" && PlainSuffix(suf)
    ensures WithSuffix(PathJoin(dir, stem + ".mp3"), suf) == Ok(PathJoin(dir, stem + suf))
  {
    var name := stem + ".mp3";
    NoSlashConcat(stem, ".mp3");
    assert !Absolute(name) && !Absolute(stem + suf) by {
      assert stem[0] in stem && name[0] == stem[0] && (stem + suf)[0] == stem[0];
    }
    var p := PathJoin(dir, name);
    PathJoinParts(dir, name);
    SuffixOfPlain(stem, ".mp3");
    assert WithSuffix(p, suf) == Ok(Dir(p) + Stem(Name(p)) + suf);
    assert (dir + "/") + stem + suf == PathJoin(dir, stem + suf);
  }

  /** One item of `generate_batch`: the pair's text cleaned, spoken under the pair's segment id. */
  function BatchItem(g: TTSGenerator, item: (string, string), speak: (Provider, string, string) -> bool): Result<string> {
    GenerateVoiceover(g, CleanText(item.1), item.0, None, speak)
  }

  /** One more successful item extends the paths of the items before it. */
  lemma BatchStep(g: TTSGenerator, segments: seq<(string, string)>, speak: (Provider, string, string) -> bool,
                  files: seq<string>, v: string)
    requires |files| < |segments| && Ok(v) == BatchItem(g, segments[|files|], speak)
    requires forall k :: 0 <= k < |files| ==> Ok(files[k]) == BatchItem(g, segments[k], speak)
    ensures forall k :: 0 <= k < |files| + 1 ==> Ok((files + [v])[k]) == BatchItem(g, segments[k], speak)
  {
  }

  /** Item `k` fails and every item before it succeeds. */
  predicate FirstFailure(g: TTSGenerator, segments: seq<(string, string)>,
                         speak: (Provider, string, string) -> bool, k: int) {
    0 <= k < |segments| && BatchItem(g, segments[k], speak).Err?
    && forall j :: 0 <= j < k ==> BatchItem(g, segments[j], speak).Ok?
  }

  /**
   * `generate_batch`: the first item that fails ends the batch with its error; otherwise one
   * path per (segment id, text) pair, in the order of the pairs.
   */
  method GenerateBatch(g: TTSGenerator, segments: seq<(string, string)>,
                       speak: (Provider, string, string) -> bool) returns (r: Result<seq<string>>)
    ensures r.Ok? <==> forall k :: 0 <= k < |segments| ==> BatchItem(g, segments[k], speak).Ok?
    ensures r.Ok? ==> |r.value| == |segments|
    ensures r.Ok? ==> forall k :: 0 <= k < |segments| ==> Ok(r.value[k]) == BatchItem(g, segments[k], speak)
    ensures r.Err? ==> exists k :: FirstFailure(g, segments, speak, k) && r.msg == BatchItem(g, segments[k], speak).msg
  {
    var audioFiles: seq<string> := [];
    var i := 0;
    while i < |segments|
      invariant 0 <= i <= |segments| && |audioFiles| == i
      invariant forall k :: 0 <= k < i ==> Ok(audioFiles[k]) == BatchItem(g, segments[k], speak)
    {
      var (segmentId, text) := segments[i];
      var cleanText := CleanText(text);
      var audioPath := GenerateVoiceover(g, cleanText, segmentId, None, speak);
      if audioPath.Err? {
        assert FirstFailure(g, segments, speak, i);
        return Err(audioPath.msg);
      }
      assert audioPath == BatchItem(g, segments[i], speak);
      BatchStep(g, segments, speak, audioFiles, audioPath.value);
      audioFiles := audioFiles + [audioPath.value];
      i := i + 1;
    }
    return Ok(audioFiles);
  }
}

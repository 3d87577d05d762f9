/**
 * The pipeline orchestrator: it parses the script, asks the scene generator for one picture
 * per segment (choosing the kind of picture from the segment's screen cues and shaping its
 * parameters), has the voiceovers spoken, builds the compositor's scene configurations and
 * records what was produced in a manifest.
 *
 * The drawing library is the oracle `render`: it either writes the picture to the path it
 * is given or fails.
 */
module Orchestrator {
  import opened Wrappers
  import opened Text
  import opened Paths
  import opened ScriptParser
  import opened TTS
  import opened Compositor
  import LLM

  // ---------------------------------------------------------------------------
  // Choosing the kind of scene (`_classify_scene_type`, the diagram type)

  datatype SceneKind = Chart | Diagram | TitleScene | TextScene {
    /** The name the kind has in file names. */
    function Name(): string {
      match this
      case Chart => "chart"
      case Diagram => "diagram"
      case TitleScene => "title"
      case TextScene => "text"
    }
  }

  /** Different kinds have different names. */
  lemma KindNameInjective(k1: SceneKind, k2: SceneKind)
    requires k1.Name() == k2.Name()
    ensures k1 == k2
  {
  }

  /** The screen cues, joined with spaces and lower-cased. */
  function ScreenText(seg: Segment): string {
    Lower(Join(" ", seg.screen))
  }

  /** The words that make a chart, and those that make a diagram. */
  const ChartWords: seq<string> := ["chart", "price", "graph"]
  const DiagramWords: seq<string> := ["diagram", "flow", "comparison", "split screen"]

  /** Some word of `words` occurs in `t`. */
  predicate MentionsAny(t: string, words: seq<string>)
    decreases |words|
  {
    |words| > 0 && (Contains(t, words[0]) || MentionsAny(t, words[1..]))
  }

  lemma {:induction false} MentionsAnySpec(t: string, words: seq<string>)
    decreases |words|
    ensures MentionsAny(t, words) <==> exists k :: 0 <= k < |words| && Contains(t, words[k])
  {
    if |words| > 0 {
      MentionsAnySpec(t, words[1..]);
      if MentionsAny(t, words[1..]) {
        var k :| 0 <= k < |words[1..]| && Contains(t, words[1..][k]);
        assert Contains(t, words[k + 1]);
      }
      if exists k :: 0 <= k < |words| && Contains(t, words[k]) {
        var k :| 0 <= k < |words| && Contains(t, words[k]);
        if k > 0 {
          assert Contains(t, words[1..][k - 1]);
        }
      }
    }
  }

  /** `_classify_scene_type`: the first rule that applies, in the order chart, diagram, title, text. */
  function Classify(seg: Segment): SceneKind {
    var t := ScreenText(seg);
    if MentionsAny(t, ChartWords) then Chart
    else if MentionsAny(t, DiagramWords) then Diagram
    else if Contains(t, "title card") || seg.startTime == 0 then TitleScene
    else TextScene
  }

  /** A word in one cue, in any case, is a word of the screen text. */
  lemma CueInScreenText(seg: Segment, k: nat, w: string)
    requires k < |seg.screen| && Contains(Lower(seg.screen[k]), w)
    ensures Contains(ScreenText(seg), w)
  {
    JoinHasPart(" ", seg.screen, k);
    var a, b :| Join(" ", seg.screen) == a + seg.screen[k] + b;
    LowerConcat(a + seg.screen[k], b);
    LowerConcat(a, seg.screen[k]);
    ContainsInfix(Lower(a), Lower(seg.screen[k]), Lower(b), w);
  }

  /**
   * One cue decides the kind by the words it holds, whatever their case and whatever the other
   * cues say: a chart word makes a chart; a diagram word makes a diagram unless some cue makes
   * a chart; "title card" makes a title unless some cue makes a chart or a diagram.
   */
  lemma CueClassifies(seg: Segment, k: nat, w: string)
    requires k < |seg.screen| && Contains(Lower(seg.screen[k]), w)
    ensures w in ChartWords ==> Classify(seg) == Chart
    ensures w in DiagramWords ==> Classify(seg) in {Chart, Diagram}
    ensures w == "title card" ==> Classify(seg) in {Chart, Diagram, TitleScene}
  {
    CueInScreenText(seg, k, w);
    MentionsAnySpec(ScreenText(seg), ChartWords);
    MentionsAnySpec(ScreenText(seg), DiagramWords);
  }

  /** Without a screen cue, the opening segment is a title and every other one is text. */
  lemma NoCueClassifies(seg: Segment)
    requires seg.screen == []
    ensures Classify(seg) == if seg.startTime == 0 then TitleScene else TextScene
  {
    assert ScreenText(seg) == [];
    MentionsAnySpec([], ChartWords);
    MentionsAnySpec([], DiagramWords);
    forall w | |w| > 0
      ensures !Contains([], w)
    {
      assert Find([], w, 0) == -1;
    }
  }

  /** The diagram type: comparison before flow before framework. */
  function DiagramType(seg: Segment): string {
    var t := ScreenText(seg);
    if Contains(t, "vs") || Contains(t, "comparison") || Contains(t, "split") then "comparison"
    else if Contains(t, "flow") || Contains(t, "\U{2192}") then "flow"
    else "framework"
  }

  /** A comparison word in one cue makes a comparison; a flow word or an arrow makes a flow unless some cue makes a comparison. */
  lemma CueDiagramType(seg: Segment, k: nat, w: string)
    requires k < |seg.screen| && Contains(Lower(seg.screen[k]), w)
    ensures w in ["vs", "comparison", "split"] ==> DiagramType(seg) == "comparison"
    ensures w in ["flow", "\U{2192}"] ==> DiagramType(seg) in {"comparison", "flow"}
  {
    CueInScreenText(seg, k, w);
  }

  // ---------------------------------------------------------------------------
  // Scene parameters

  /** The title drawn on a scene: the stripped text after the last `]`, or the title itself when it has none. */
  function DisplayTitle(title: string): string {
    if ']' in title then Strip(LastPiece(title, ']')) else title
  }

  /** A title with a bracket loses everything up to its last bracket and its surrounding whitespace. */
  lemma DisplayTitleSpec(a: string, b: string)
    requires ']' !in b
    ensures DisplayTitle(a + "]" + b) == Strip(b)
    ensures ']' !in DisplayTitle(a + "]" + b)
  {
    var t := a + "]" + b;
    assert t[|a|] == ']';
    assert t[|a| + 1..] == b;
    LastPieceUnique(t, ']', |a| + 1);
    if ']' in Strip(b) {
      StripKeepsChars(b, ']');
    }
  }

  /** Cues shorter than 100 characters, in order: the candidate chart annotations. */
  function ShortCues(screen: seq<string>): seq<string> {
    if |screen| == 0 then []
    else if |screen[|screen| - 1]| < 100 then ShortCues(screen[..|screen| - 1]) + [screen[|screen| - 1]]
    else ShortCues(screen[..|screen| - 1])
  }

  /** The short cues of two runs of cues are those of the first run followed by those of the second. */
  lemma {:induction false} ShortCuesAppend(a: seq<string>, b: seq<string>)
    ensures ShortCues(a + b) == ShortCues(a) + ShortCues(b)
    decreases |b|
  {
    if |b| == 0 {
      assert a + b == a;
    } else {
      var b0 := b[..|b| - 1];
      assert (a + b)[..|a + b| - 1] == a + b0;
      ShortCuesAppend(a, b0);
    }
  }

  /** An annotation is a cue shorter than 100 characters, and every such cue is one. */
  lemma {:induction false} ShortCuesSpec(screen: seq<string>)
    ensures forall x :: x in ShortCues(screen) ==> x in screen && |x| < 100
    ensures forall k :: 0 <= k < |screen| && |screen[k]| < 100 ==> screen[k] in ShortCues(screen)
    ensures |ShortCues(screen)| <= |screen|
  {
    if |screen| > 0 {
      var init := screen[..|screen| - 1];
      ShortCuesSpec(init);
      assert forall k :: 0 <= k < |init| ==> init[k] == screen[k];
      assert forall x :: x in init ==> x in screen;
    }
  }

  /** `xs[:n]`. */
  function Take<T>(xs: seq<T>, n: nat): (r: seq<T>)
    ensures |r| == if |xs| <= n then |xs| else n
    ensures r == xs[..|r|]
  {
    if |xs| <= n then xs else xs[..n]
  }

  /** The stripped, non-empty pieces, in order. */
  function StrippedParts(parts: seq<string>): seq<string> {
    if |parts| == 0 then []
    else
      var rest := StrippedParts(parts[..|parts| - 1]);
      var p := Strip(parts[|parts| - 1]);
      if p != "" then rest + [p] else rest
  }

  /** The diagram elements one cue gives: arrows become `|`, the pieces between bars are stripped, empty ones dropped. */
  function CueElements(cue: string): seq<string> {
    StrippedParts(Split(ReplaceAll(cue, "\U{2192}", "|"), '|'))
  }

  /** The elements of all cues, cue after cue. */
  function Elements(screen: seq<string>): seq<string> {
    if |screen| == 0 then []
    else Elements(screen[..|screen| - 1]) + CueElements(screen[|screen| - 1])
  }

  /** Stripped pieces of pieces without `|` or arrow are non-empty, have no surrounding whitespace and no `|` or arrow. */
  lemma {:induction false} StrippedPartsClean(parts: seq<string>)
    requires forall k :: 0 <= k < |parts| ==> '|' !in parts[k] && '\U{2192}' !in parts[k]
    ensures forall k :: 0 <= k < |StrippedParts(parts)| ==> ElementShape(StrippedParts(parts)[k])
  {
    if |parts| > 0 {
      StrippedPartsClean(parts[..|parts| - 1]);
      var q := parts[|parts| - 1];
      if '|' in Strip(q) { StripKeepsChars(q, '|'); }
      if '\U{2192}' in Strip(q) { StripKeepsChars(q, '\U{2192}'); }
    }
  }

  /** What every diagram element looks like. */
  predicate ElementShape(e: string) {
    e != "" && IsStripped(e) && '|' !in e && '\U{2192}' !in e
  }

  /** Every element of one cue has the element shape. */
  lemma CueElementsClean(cue: string)
    ensures forall k :: 0 <= k < |CueElements(cue)| ==> ElementShape(CueElements(cue)[k])
  {
    var r := ReplaceAll(cue, "\U{2192}", "|");
    ReplaceCharRemoves(cue, '\U{2192}', "|");
    SplitPartsFree(r, '|');
    var parts := Split(r, '|');
    forall k | 0 <= k < |parts|
      ensures '|' !in parts[k] && '\U{2192}' !in parts[k]
    {
      JoinHasPart("|", parts, k);
    }
    StrippedPartsClean(parts);
  }

  /** Every diagram element is non-empty, stripped, and holds neither `|` nor an arrow. */
  lemma {:induction false} ElementsClean(screen: seq<string>)
    ensures forall k :: 0 <= k < |Elements(screen)| ==> ElementShape(Elements(screen)[k])
  {
    if |screen| > 0 {
      var init := screen[..|screen| - 1];
      ElementsClean(init);
      CueElementsClean(screen[|screen| - 1]);
      var a := Elements(init);
      var b := CueElements(screen[|screen| - 1]);
      forall k | 0 <= k < |a + b|
        ensures ElementShape((a + b)[k])
      {
        if k >= |a| {
          assert (a + b)[k] == b[k - |a|];
        }
      }
    }
  }

  /** The text of a text scene: at most 80 characters, the first 77 and an ellipsis when it is longer. */
  function Truncate(t: string): (r: string)
    ensures |r| <= 80
    ensures |t| <= 80 ==> r == t
    ensures |t| > 80 ==> |r| == 80 && r == t[..77] + "..."
  {
    if |t| > 80 then t[..77] + "..." else t
  }

  /** The subtitle of a title scene: the first voiceover line, when there is one and it is shorter than 60 characters. */
  function Subtitle(voiceover: seq<string>): (r: Option<string>)
    ensures r.Some? <==> |voiceover| > 0 && |voiceover[0]| < 60
    ensures r.Some? ==> r.value == voiceover[0]
  {
    if |voiceover| > 0 && |voiceover[0]| < 60 then Some(voiceover[0]) else None
  }

  // ---------------------------------------------------------------------------
  // File names

  /** `scene_{index:02d}_{kind}.png`, a relative name. */
  function SceneName(index: nat, kind: SceneKind): (r: string)
    ensures !Absolute(r)
  {
    "scene_" + Pad2(index) + "_" + kind.Name() + ".png"
  }

  /** Two scenes get the same file name only when they have the same index and kind. */
  lemma SceneNameInjective(i: nat, k1: SceneKind, j: nat, k2: SceneKind)
    requires SceneName(i, k1) == SceneName(j, k2)
    ensures i == j && k1 == k2
  {
    SceneNamePieces(i, k1, j, k2);
    assert Val(Pad2(i)) == i && Val(Pad2(j)) == j;
    KindNameInjective(k1, k2);
  }

  /** Equal scene names have equal index digits and equal kind names. */
  lemma SceneNamePieces(i: nat, k1: SceneKind, j: nat, k2: SceneKind)
    requires SceneName(i, k1) == SceneName(j, k2)
    ensures Pad2(i) == Pad2(j) && k1.Name() == k2.Name()
  {
    SceneNameParts(Pad2(i), k1.Name());
    SceneNameParts(Pad2(j), k2.Name());
  }

  /** A scene name is read back by its first `_` after `scene_`: digits before it, the kind and `.png` after. */
  lemma SceneNameParts(p: string, n: string)
    requires AllDigits(p)
    ensures var s := "scene_" + p + "_" + n + ".png";
      NextChar(s, '_', 6) == 6 + |p| && s[6..6 + |p|] == p && s[7 + |p|..|s| - 4] == n
  {
    var s := "scene_" + p + "_" + n + ".png";
    forall k | 6 <= k < 6 + |p|
      ensures s[k] != '_'
    {
      assert s[k] == p[k - 6];
    }
    NextCharIs(s, '_', 6, 6 + |p|);
  }

  /** The index a scene file name carries: the digits between `scene_` and the next `_`. */
  function SceneNameIndex(name: string): nat {
    if |name| < 6 then 0
    else
      var e := NextChar(name, '_', 6);
      if AllDigits(name[6..e]) then Val(name[6..e]) else 0
  }

  /** The index carried by the name of a path in `dir`. */
  function ScenePathIndex(dir: string, p: string): nat {
    if |p| <= |dir| then 0 else SceneNameIndex(p[|dir| + 1..])
  }

  /** The index is read back from a scene file's name. */
  lemma SceneNameIndexOf(i: nat, kind: SceneKind)
    ensures SceneNameIndex(SceneName(i, kind)) == i
  {
    SceneNameParts(Pad2(i), kind.Name());
  }

  /** The index is read back from a scene file's path. */
  lemma SceneFileIndex(dir: string, i: nat, kind: SceneKind)
    ensures ScenePathIndex(dir, PathJoin(dir, SceneName(i, kind))) == i
  {
    var n := SceneName(i, kind);
    assert PathJoin(dir, n)[|dir| + 1..] == n;
    SceneNameIndexOf(i, kind);
  }

  /** `segment_{index:02d}`, the id of a segment's voiceover. */
  function SegmentId(index: nat): (r: string)
    ensures '/' !in r
  {
    var d := Pad2(index);
    assert forall k :: 0 <= k < |d| ==> IsDigit(d[k]);
    "segment_" + d
  }

  /** Different segments get different voiceover ids. */
  lemma SegmentIdInjective(i: nat, j: nat)
    requires SegmentId(i) == SegmentId(j)
    ensures i == j
  {
    assert SegmentId(i)[8..] == Pad2(i);
    assert SegmentId(j)[8..] == Pad2(j);
  }

  /** The voiceover ids and texts handed to the batch, one per segment, numbered from 1. */
  function AudioItemsOf(segments: seq<Segment>): (r: seq<(string, string)>)
    ensures |r| == |segments|
  {
    seq(|segments|, k requires 0 <= k < |segments| => (SegmentId(k + 1), segments[k].VoiceoverText()))
  }

  /** Each segment is spoken under an id without `/`, with its voiceover lines joined by spaces. */
  lemma AudioItemsText(segments: seq<Segment>, k: nat)
    requires k < |segments|
    ensures AudioItemsOf(segments)[k].0 == SegmentId(k + 1) && '/' !in AudioItemsOf(segments)[k].0
    ensures AudioItemsOf(segments)[k].1 == Join(" ", segments[k].voiceover)
  {
    assert AudioItemsOf(segments)[k] == (SegmentId(k + 1), segments[k].VoiceoverText());
  }

  /** The voiceover ids of a batch are pairwise different. */
  lemma AudioItemsDistinct(segments: seq<Segment>)
    ensures forall j, k :: 0 <= j < k < |segments| ==> AudioItemsOf(segments)[j].0 != AudioItemsOf(segments)[k].0
  {
    forall j, k | 0 <= j < k < |segments|
      ensures AudioItemsOf(segments)[j].0 != AudioItemsOf(segments)[k].0
    {
      AudioIdsDiffer(segments, j, k);
    }
  }

  lemma AudioIdsDiffer(segments: seq<Segment>, j: nat, k: nat)
    requires j < k < |segments|
    ensures AudioItemsOf(segments)[j].0 != AudioItemsOf(segments)[k].0
  {
    var items := AudioItemsOf(segments);
    SegmentIdsDiffer(j + 1, k + 1);
    assert items[j].0 == SegmentId(j + 1) && items[k].0 == SegmentId(k + 1);
  }

  lemma SegmentIdsDiffer(i: nat, j: nat)
    requires i != j
    ensures SegmentId(i) != SegmentId(j)
  {
    if SegmentId(i) == SegmentId(j) {
      SegmentIdInjective(i, j);
    }
  }

  // ---------------------------------------------------------------------------
  // Scene requests

  /** What the scene generator is asked to draw; every request names the file it is to write. */
  datatype SceneRequest =
    | ChartScene(title: string, annotations: seq<string>, outputPath: string)
    | DiagramScene(title: string, diagramType: string, elements: seq<string>, outputPath: string)
    | TitleCard(title: string, subtitle: Option<string>, outputPath: string)
    | TextOverlay(text: string, position: string, outputPath: string)

  /** The text a text scene shows: the first cue, or the title without cues, cut to 80 characters. */
  function OverlayText(seg: Segment): string {
    Truncate(if |seg.screen| > 0 then seg.screen[0] else seg.title)
  }

  /** The request `_generate_scenes_for_segments` makes for the segment with 1-based index `index`. */
  function SceneRequestFor(scenesDir: string, seg: Segment, index: nat): SceneRequest {
    var kind := Classify(seg);
    var path := PathJoin(scenesDir, SceneName(index, kind));
    match kind
    case Chart => ChartScene(DisplayTitle(seg.title), Take(ShortCues(seg.screen), 3), path)
    case Diagram => DiagramScene(DisplayTitle(seg.title), DiagramType(seg), Take(Elements(seg.screen), 6), path)
    case TitleScene => TitleCard(DisplayTitle(seg.title), Subtitle(seg.voiceover), path)
    case TextScene => TextOverlay(OverlayText(seg), "center", path)
  }

  /** The file the scene of a segment is written to: `scene_<index>_<kind>.png` in the scenes directory. */
  function ScenePath(scenesDir: string, seg: Segment, index: nat): string {
    PathJoin(scenesDir, SceneName(index, Classify(seg)))
  }

  /** Every request is written to the scene's path, whose file name is the scene name. */
  lemma SceneRequestPath(scenesDir: string, seg: Segment, index: nat)
    ensures SceneRequestFor(scenesDir, seg, index).outputPath == ScenePath(scenesDir, seg, index)
    ensures Name(ScenePath(scenesDir, seg, index)) == SceneName(index, Classify(seg))
  {
    SceneNameFree(index, Classify(seg));
    PathJoinParts(scenesDir, SceneName(index, Classify(seg)));
  }

  /** The requested picture is of the segment's kind. */
  lemma SceneRequestKind(scenesDir: string, seg: Segment, index: nat)
    ensures var q := SceneRequestFor(scenesDir, seg, index);
      (q.ChartScene? <==> Classify(seg) == Chart)
      && (q.DiagramScene? <==> Classify(seg) == Diagram)
      && (q.TitleCard? <==> Classify(seg) == TitleScene)
      && (q.TextOverlay? <==> Classify(seg) == TextScene)
  {
  }

  /**
   * A chart has the display title and the first three short cues (all of them when there are
   * fewer), each a cue shorter than 100 characters, in cue order.
   */
  lemma ChartRequestShape(scenesDir: string, seg: Segment, index: nat)
    requires Classify(seg) == Chart
    ensures var q := SceneRequestFor(scenesDir, seg, index);
      q.ChartScene? && q.title == DisplayTitle(seg.title)
      && |q.annotations| == (if |ShortCues(seg.screen)| <= 3 then |ShortCues(seg.screen)| else 3)
      && q.annotations == ShortCues(seg.screen)[..|q.annotations|]
      && forall a :: a in q.annotations ==> a in seg.screen && |a| < 100
  {
    ShortCuesSpec(seg.screen);
  }

  /**
   * A diagram has the display title, the segment's diagram type and the first six elements
   * (all of them when there are fewer), each of the element shape.
   */
  lemma DiagramRequestShape(scenesDir: string, seg: Segment, index: nat)
    requires Classify(seg) == Diagram
    ensures var q := SceneRequestFor(scenesDir, seg, index);
      q.DiagramScene? && q.title == DisplayTitle(seg.title) && q.diagramType == DiagramType(seg)
      && |q.elements| == (if |Elements(seg.screen)| <= 6 then |Elements(seg.screen)| else 6)
      && q.elements == Elements(seg.screen)[..|q.elements|]
      && forall k :: 0 <= k < |q.elements| ==> ElementShape(q.elements[k])
  {
    ElementsClean(seg.screen);
  }

  /** A text scene shows at most 80 characters, centred. */
  lemma TextRequestShape(scenesDir: string, seg: Segment, index: nat)
    requires Classify(seg) == TextScene
    ensures var q := SceneRequestFor(scenesDir, seg, index);
      q.TextOverlay? && |q.text| <= 80 && q.position == "center"
  {
  }

  /** A scene name holds no `/`, so it is the file name of its path. */
  lemma SceneNameFree(index: nat, kind: SceneKind)
    ensures '/' !in SceneName(index, kind)
  {
    var d := Pad2(index);
    var n := kind.Name();
    assert '/' !in d by {
      assert forall k :: 0 <= k < |d| ==> IsDigit(d[k]);
    }
    assert '/' !in n;
    var s := SceneName(index, kind);
    forall k | 0 <= k < |s|
      ensures s[k] != '/'
    {
      if 6 <= k < 6 + |d| {
        assert s[k] == d[k - 6];
      } else if 7 + |d| <= k < 7 + |d| + |n| {
        assert s[k] == n[k - 7 - |d|];
      }
    }
  }

  /** The scenes of different segments are written to different files. */
  lemma ScenePathsDistinct(scenesDir: string, s1: Segment, i: nat, s2: Segment, j: nat)
    requires i != j
    ensures ScenePath(scenesDir, s1, i) != ScenePath(scenesDir, s2, j)
  {
    SceneFilesDiffer(scenesDir, i, Classify(s1), j, Classify(s2));
  }

  /** Scene files of different indices in one directory differ, whatever their kinds. */
  lemma SceneFilesDiffer(scenesDir: string, i: nat, k1: SceneKind, j: nat, k2: SceneKind)
    requires i != j
    ensures PathJoin(scenesDir, SceneName(i, k1)) != PathJoin(scenesDir, SceneName(j, k2))
  {
    SceneFileIndex(scenesDir, i, k1);
    SceneFileIndex(scenesDir, j, k2);
  }

  /** The chart annotations: the short cues, collected cue by cue. */
  method ChartAnnotations(screen: seq<string>) returns (annotations: seq<string>)
    ensures annotations == ShortCues(screen)
  {
    annotations := [];
    var i := 0;
    while i < |screen|
      invariant 0 <= i <= |screen|
      invariant annotations == ShortCues(screen[..i])
    {
      assert screen[..i + 1][..i] == screen[..i];
      if |screen[i]| < 100 {
        annotations := annotations + [screen[i]];
      }
      i := i + 1;
    }
    assert screen[..i] == screen;
  }

  /** The diagram elements, extended cue by cue. */
  method DiagramElements(screen: seq<string>) returns (elements: seq<string>)
    ensures elements == Elements(screen)
  {
    elements := [];
    var i := 0;
    while i < |screen|
      invariant 0 <= i <= |screen|
      invariant elements == Elements(screen[..i])
    {
      assert screen[..i + 1][..i] == screen[..i];
      elements := elements + CueElements(screen[i]);
      i := i + 1;
    }
    assert screen[..i] == screen;
  }

  /** The request for one segment, as the four `_generate_*_scene` builders shape it. */
  method BuildSceneRequest(scenesDir: string, seg: Segment, index: nat) returns (q: SceneRequest)
    ensures q == SceneRequestFor(scenesDir, seg, index)
  {
    var kind := Classify(seg);
    var path := PathJoin(scenesDir, SceneName(index, kind));
    match kind {
      case Chart =>
        var annotations := ChartAnnotations(seg.screen);
        q := ChartScene(DisplayTitle(seg.title), Take(annotations, 3), path);
      case Diagram =>
        var elements := DiagramElements(seg.screen);
        q := DiagramScene(DisplayTitle(seg.title), DiagramType(seg), Take(elements, 6), path);
      case TitleScene =>
        var subtitle: Option<string> := None;
        if |seg.voiceover| > 0 && |seg.voiceover[0]| < 60 {
          subtitle := Some(seg.voiceover[0]);
        }
        q := TitleCard(DisplayTitle(seg.title), subtitle, path);
      case TextScene =>
        var text := if |seg.screen| > 0 then seg.screen[0] else seg.title;
        if |text| > 80 {
          text := text[..77] + "...";
        }
        q := TextOverlay(text, "center", path);
    }
  }

  /** The drawing library: whether it manages to draw a request (it then returns the path it was given). */
  type Renderer = SceneRequest -> bool

  /** The scenes of the first `n` segments can all be drawn. */
  predicate DrawnUpTo(scenesDir: string, segments: seq<Segment>, render: Renderer, n: nat)
    requires n <= |segments|
  {
    n == 0 || (DrawnUpTo(scenesDir, segments, render, n - 1) && render(SceneRequestFor(scenesDir, segments[n - 1], n)))
  }

  /** The scene paths of the first `n` segments, in order. */
  function ScenePathsUpTo(scenesDir: string, segments: seq<Segment>, n: nat): (r: seq<string>)
    requires n <= |segments|
    ensures |r| == n
  {
    if n == 0 then [] else ScenePathsUpTo(scenesDir, segments, n - 1) + [ScenePath(scenesDir, segments[n - 1], n)]
  }

  /** Every segment's scene can be drawn. */
  predicate AllDrawn(scenesDir: string, segments: seq<Segment>, render: Renderer) {
    DrawnUpTo(scenesDir, segments, render, |segments|)
  }

  /** The scene paths of a run in which every scene is drawn. */
  function ScenePathsOf(scenesDir: string, segments: seq<Segment>): (r: seq<string>)
    ensures |r| == |segments|
  {
    ScenePathsUpTo(scenesDir, segments, |segments|)
  }

  /** The first `n` scenes are drawn exactly when each of them is. */
  lemma DrawnUpToSpec(scenesDir: string, segments: seq<Segment>, render: Renderer, n: nat)
    requires n <= |segments|
    ensures DrawnUpTo(scenesDir, segments, render, n) <==>
      forall k :: 0 <= k < n ==> render(SceneRequestFor(scenesDir, segments[k], k + 1))
  {
    if DrawnUpTo(scenesDir, segments, render, n) {
      forall k | 0 <= k < n
        ensures render(SceneRequestFor(scenesDir, segments[k], k + 1))
      {
        DrawnAt(scenesDir, segments, render, n, k);
      }
    }
    if forall k :: 0 <= k < n ==> render(SceneRequestFor(scenesDir, segments[k], k + 1)) {
      DrawnFromEach(scenesDir, segments, render, n);
    }
  }

  lemma {:induction false} DrawnAt(scenesDir: string, segments: seq<Segment>, render: Renderer, n: nat, k: nat)
    requires k < n <= |segments| && DrawnUpTo(scenesDir, segments, render, n)
    ensures render(SceneRequestFor(scenesDir, segments[k], k + 1))
    decreases n
  {
    if k < n - 1 {
      DrawnAt(scenesDir, segments, render, n - 1, k);
    }
  }

  lemma {:induction false} DrawnFromEach(scenesDir: string, segments: seq<Segment>, render: Renderer, n: nat)
    requires n <= |segments|
    requires forall k :: 0 <= k < n ==> render(SceneRequestFor(scenesDir, segments[k], k + 1))
    ensures DrawnUpTo(scenesDir, segments, render, n)
  {
    if n > 0 {
      DrawnFromEach(scenesDir, segments, render, n - 1);
    }
  }

  /** Path `k` of the first `n` is the scene path of segment `k`. */
  lemma ScenePathsUpToSpec(scenesDir: string, segments: seq<Segment>, n: nat)
    requires n <= |segments|
    ensures forall k :: 0 <= k < n ==> ScenePathsUpTo(scenesDir, segments, n)[k] == ScenePath(scenesDir, segments[k], k + 1)
  {
    forall k | 0 <= k < n
      ensures ScenePathsUpTo(scenesDir, segments, n)[k] == ScenePath(scenesDir, segments[k], k + 1)
    {
      ScenePathAt(scenesDir, segments, n, k);
    }
  }

  lemma {:induction false} ScenePathAt(scenesDir: string, segments: seq<Segment>, n: nat, k: nat)
    requires k < n <= |segments|
    ensures ScenePathsUpTo(scenesDir, segments, n)[k] == ScenePath(scenesDir, segments[k], k + 1)
    decreases n
  {
    if k < n - 1 {
      ScenePathAt(scenesDir, segments, n - 1, k);
      ScenePathsKeepPrefix(scenesDir, segments, n, k);
    }
  }

  /** Drawing one more scene leaves the earlier paths as they were. */
  lemma ScenePathsKeepPrefix(scenesDir: string, segments: seq<Segment>, n: nat, k: nat)
    requires k < n - 1 && n <= |segments|
    ensures ScenePathsUpTo(scenesDir, segments, n)[k] == ScenePathsUpTo(scenesDir, segments, n - 1)[k]
  {
    var init := ScenePathsUpTo(scenesDir, segments, n - 1);
    assert (init + [ScenePath(scenesDir, segments[n - 1], n)])[k] == init[k];
  }

  /** Segment `k` (0-based) is the first whose scene cannot be drawn. */
  predicate FirstUndrawn(scenesDir: string, segments: seq<Segment>, render: Renderer, k: int) {
    0 <= k < |segments| && DrawnUpTo(scenesDir, segments, render, k)
    && !render(SceneRequestFor(scenesDir, segments[k], k + 1))
  }

  /** A first segment that cannot be drawn means not all are drawn. */
  lemma UndrawnNotAll(scenesDir: string, segments: seq<Segment>, render: Renderer, k: int)
    requires FirstUndrawn(scenesDir, segments, render, k)
    ensures !AllDrawn(scenesDir, segments, render)
  {
    DrawnUpToSpec(scenesDir, segments, render, |segments|);
  }

  /** `_generate_scenes_for_segments`: one drawn scene per segment, in order; a drawing failure ends the run. */
  method GenerateScenes(scenesDir: string, segments: seq<Segment>, render: Renderer) returns (r: Result<seq<string>>)
    ensures r.Ok? <==> AllDrawn(scenesDir, segments, render)
    ensures r.Ok? ==> r.value == ScenePathsOf(scenesDir, segments)
    ensures r.Err? ==> exists k :: FirstUndrawn(scenesDir, segments, render, k)
  {
    var scenePaths: seq<string> := [];
    var i := 0;
    while i < |segments|
      invariant 0 <= i <= |segments|
      invariant DrawnUpTo(scenesDir, segments, render, i) && scenePaths == ScenePathsUpTo(scenesDir, segments, i)
    {
      var drawn, path := DrawScene(scenesDir, segments[i], i + 1, render);
      SceneStep(scenesDir, segments, render, i, scenePaths, drawn, path);
      if !drawn {
        return Err("Scene generation failed");
      }
      scenePaths := scenePaths + [path];
      i := i + 1;
    }
    return Ok(scenePaths);
  }

  /** One more segment: drawn up to it when drawn before it and its own scene is drawn; its path comes last. */
  lemma DrawnStep(scenesDir: string, segments: seq<Segment>, render: Renderer, i: nat)
    requires i < |segments|
    ensures DrawnUpTo(scenesDir, segments, render, i + 1)
      == (DrawnUpTo(scenesDir, segments, render, i) && render(SceneRequestFor(scenesDir, segments[i], i + 1)))
    ensures ScenePathsUpTo(scenesDir, segments, i + 1)
      == ScenePathsUpTo(scenesDir, segments, i) + [ScenePath(scenesDir, segments[i], i + 1)]
  {
  }

  /** The loop's step: a drawn scene extends the drawn prefix and its paths; an undrawn one is the first. */
  lemma SceneStep(scenesDir: string, segments: seq<Segment>, render: Renderer, i: nat,
                  scenePaths: seq<string>, drawn: bool, path: string)
    requires i < |segments| && DrawnUpTo(scenesDir, segments, render, i)
    requires scenePaths == ScenePathsUpTo(scenesDir, segments, i)
    requires drawn == render(SceneRequestFor(scenesDir, segments[i], i + 1))
    requires path == ScenePath(scenesDir, segments[i], i + 1)
    ensures drawn ==>
      DrawnUpTo(scenesDir, segments, render, i + 1) && scenePaths + [path] == ScenePathsUpTo(scenesDir, segments, i + 1)
    ensures !drawn ==> FirstUndrawn(scenesDir, segments, render, i) && !AllDrawn(scenesDir, segments, render)
  {
    DrawnStep(scenesDir, segments, render, i);
    if !drawn {
      UndrawnNotAll(scenesDir, segments, render, i);
    }
  }

  /** One scene: the segment's request is handed to the drawing library, which draws it at the scene's path. */
  method DrawScene(scenesDir: string, seg: Segment, index: nat, render: Renderer) returns (drawn: bool, path: string)
    ensures drawn == render(SceneRequestFor(scenesDir, seg, index))
    ensures path == ScenePath(scenesDir, seg, index)
  {
    var q := BuildSceneRequest(scenesDir, seg, index);
    SceneRequestPath(scenesDir, seg, index);
    drawn, path := render(q), q.outputPath;
  }

  /** `_generate_audio_for_segments`, the batch it prepares. */
  method PrepareAudioItems(segments: seq<Segment>) returns (items: seq<(string, string)>)
    ensures items == AudioItemsOf(segments)
  {
    items := [];
    var i := 0;
    while i < |segments|
      invariant 0 <= i <= |segments| && |items| == i
      invariant forall k :: 0 <= k < i ==> items[k] == AudioItemsOf(segments)[k]
    {
      items := items + [(SegmentId(i + 1), segments[i].VoiceoverText())];
      i := i + 1;
    }
  }

  // ---------------------------------------------------------------------------
  // Composition

  /** The configuration of one scene: its title, picture, audio and duration, with a fade. */
  function ConfigFor(seg: Segment, scene: string, audio: string): SceneConfig {
    SceneConfig(Some(seg.title), Some(scene), Some(seg.Duration() as real), Some(audio), Some("fade"))
  }

  function Min3(a: nat, b: nat, c: nat): nat {
    if a <= b && a <= c then a else if b <= c then b else c
  }

  /** One configuration per element of `zip(segments, scenes, audio)`. */
  function ConfigsOf(segments: seq<Segment>, scenes: seq<string>, audio: seq<string>): (r: seq<SceneConfig>)
    ensures |r| == Min3(|segments|, |scenes|, |audio|)
  {
    seq(Min3(|segments|, |scenes|, |audio|),
      k requires 0 <= k < Min3(|segments|, |scenes|, |audio|) => ConfigFor(segments[k], scenes[k], audio[k]))
  }

  /**
   * There are as many configurations as the shortest of the three lists; a configured clip that
   * can be built lasts at least the segment's duration (longer when its audio is longer), plays
   * that segment's audio and fades in and out for half a second.
   */
  lemma ConfigsSpec(segments: seq<Segment>, scenes: seq<string>, audio: seq<string>, m: Media, k: nat)
    requires k < Min3(|segments|, |scenes|, |audio|)
    ensures |ConfigsOf(segments, scenes, audio)| <= |segments| && |ConfigsOf(segments, scenes, audio)| <= |scenes|
      && |ConfigsOf(segments, scenes, audio)| <= |audio|
    ensures var c := ConfigsOf(segments, scenes, audio)[k];
      c.title == Some(segments[k].title) && c.image == Some(scenes[k]) && c.audio == Some(audio[k])
      && c.duration == Some(segments[k].Duration() as real) && c.transition == Some("fade")
    ensures var c := SceneClip(ConfigsOf(segments, scenes, audio)[k], m);
      c.Ok? ==>
        c.value.image == scenes[k] && c.value.duration >= segments[k].Duration() as real
        && c.value.fadeIn == FadeLength && c.value.fadeOut == FadeLength
        && (audio[k] != "" ==> c.value.audio == Some(audio[k]))
  {
    var c := ConfigsOf(segments, scenes, audio)[k];
    SceneClipDefaults(c, m);
    ClipDurationRule(c.image, c.duration.GetOr(DefaultSceneDuration), c.audio, m);
  }

  /** `_compose_video`'s configuration loop over the zipped lists. */
  method BuildConfigs(segments: seq<Segment>, scenes: seq<string>, audio: seq<string>) returns (configs: seq<SceneConfig>)
    ensures configs == ConfigsOf(segments, scenes, audio)
  {
    configs := [];
    var n := Min3(|segments|, |scenes|, |audio|);
    var i := 0;
    while i < n
      invariant 0 <= i <= n && |configs| == i
      invariant forall k :: 0 <= k < i ==> configs[k] == ConfigFor(segments[k], scenes[k], audio[k])
    {
      configs := configs + [ConfigFor(segments[i], scenes[i], audio[i])];
      i := i + 1;
    }
  }

  /** The video's file name: the one given, or `<script stem>_video.mp4` when none or an empty one is given. */
  function VideoName(scriptPath: string, outputFilename: Option<string>): (r: string)
    ensures outputFilename.Some? && outputFilename.value != "" ==> r == outputFilename.value
    ensures outputFilename.None? || outputFilename.value == "" ==>
      r == Stem(Name(scriptPath)) + "_video.mp4" && r != ""
  {
    if outputFilename.Some? && outputFilename.value != "" then outputFilename.value
    else Stem(Name(scriptPath)) + "_video.mp4"
  }

  /** A script `<dir>/<stem>.md` gives the video name `<stem>_video.mp4`. */
  lemma DefaultVideoName(dir: string, stem: string)
    requires stem != "" && '/' !in stem && '.' !in stem
    ensures VideoName(dir + "/" + stem + ".md", None) == stem + "_video.mp4"
  {
    var p := dir + "/" + stem + ".md";
    assert p == PathJoin(dir, stem + ".md");
    PathJoinParts(dir, stem + ".md");
    SuffixOfPlain(stem, ".md");
  }

  /** Every voiceover of the batch can be spoken. */
  predicate AllSpoken(g: TTSGenerator, items: seq<(string, string)>, speak: (Provider, string, string) -> bool) {
    forall k :: 0 <= k < |items| ==> BatchItem(g, items[k], speak).Ok?
  }

  /** The audio paths of a batch in which every voiceover is spoken. */
  function SpokenPaths(g: TTSGenerator, items: seq<(string, string)>, speak: (Provider, string, string) -> bool): (r: seq<string>)
    requires AllSpoken(g, items, speak)
    ensures |r| == |items|
  {
    seq(|items|, k requires 0 <= k < |items| => BatchItem(g, items[k], speak).value)
  }

  // ---------------------------------------------------------------------------
  // The generator

  /** The manifest `generate_from_script` returns and saves. */
  datatype Manifest = Manifest(
    script: string,
    segments: nat,
    scenes: seq<string>,
    audio: seq<string>,
    video: Option<string>,
    outputDir: string)

  /** The manifest files written, path to record. */
  class ManifestStore {
    var files: map<string, Manifest>

    constructor()
      ensures files == map[]
    {
      files := map[];
    }
  }

  /** The endpoint of the client built for scene generation: the argument, else `LLM_ENDPOINT`, else the default. */
  function LlmEndpoint(llmEndpoint: Option<string>, endpointVar: Option<string>): string {
    if llmEndpoint.Some? && llmEndpoint.value != "" then llmEndpoint.value
    else endpointVar.GetOr(LLM.DefaultEndpoint)
  }

  /** The outside services the pipeline calls: the drawing library, the speech engine, the media library and the video writer. */
  datatype Services = Services(
    render: Renderer,
    speak: (Provider, string, string) -> bool,
    media: Media,
    write: (seq<Clip>, string) -> bool)

  /** `VideoGenerator`: the directories and components are fixed at construction. */
  class VideoGenerator {
    const outputDir: string
    const scenesDir: string
    const audioDir: string
    const videoDir: string
    const tts: TTSGenerator
    const compositor: VideoCompositor
    const useLlmForScenes: bool
    const llmClient: Option<LLM.LLMClient>

    /** The components work in the subdirectories of the output directory. */
    predicate Valid() {
      scenesDir == PathJoin(outputDir, "scenes")
      && audioDir == PathJoin(outputDir, "audio")
      && videoDir == PathJoin(outputDir, "video")
      && tts.outputDir == audioDir
      && compositor.outputDir == videoDir
    }

    /** The generator once its text-to-speech component is built; the client exists exactly when LLM use is asked for. */
    constructor(outputDir: string, tts: TTSGenerator, resolution: (int, int), fps: int,
                useLlmForScenes: bool, llmEndpoint: Option<string>, endpointVar: Option<string>)
      requires tts.outputDir == PathJoin(outputDir, "audio")
      ensures Valid()
      ensures this.outputDir == outputDir && this.tts == tts && this.useLlmForScenes == useLlmForScenes
      ensures fresh(compositor) && compositor.resolution == resolution && compositor.fps == fps
      ensures llmClient.Some? <==> useLlmForScenes
      ensures llmClient.Some? ==> llmClient.value.endpoint == LLM.EndpointOrDefault(LlmEndpoint(llmEndpoint, endpointVar))
    {
      this.outputDir := outputDir;
      scenesDir := PathJoin(outputDir, "scenes");
      audioDir := PathJoin(outputDir, "audio");
      videoDir := PathJoin(outputDir, "video");
      this.tts := tts;
      compositor := new VideoCompositor(PathJoin(outputDir, "video"), resolution, fps);
      this.useLlmForScenes := useLlmForScenes;
      if useLlmForScenes {
        var client := new LLM.LLMClient(LlmEndpoint(llmEndpoint, endpointVar), None,
                                        LLM.DefaultTimeout, LLM.DefaultMaxRetries);
        llmClient := Some(client);
      } else {
        llmClient := None;
      }
    }

    /**
     * `_compose_video`: the configurations are recorded in `project.json` in the output directory,
     * then composed into `<video dir>/<outputFilename>`.
     */
    method ComposeStage(segments: seq<Segment>, scenes: seq<string>, audio: seq<string>, outputFilename: string,
                        services: Services, projects: ProjectStore) returns (r: Result<string>)
      requires Valid()
      modifies projects
      ensures projects.files == old(projects.files)[PathJoin(outputDir, "project.json") :=
        Project(Some("1.0"), Some(compositor.resolution), Some(compositor.fps), Some(ConfigsOf(segments, scenes, audio)))]
      ensures r == ComposeOutcome(videoDir, outputFilename, Clips(ConfigsOf(segments, scenes, audio), services.media), services.write)
    {
      var configs := BuildConfigs(segments, scenes, audio);
      compositor.ExportProjectFile(configs, PathJoin(outputDir, "project.json"), projects);
      var clips;
      r, clips := compositor.ComposeVideo(configs, outputFilename, services.media, services.write);
    }

    /**
     * The run reaches composition: the summary prints, there are segments, all drawn and
     * spoken, and neither stage is skipped.
     */
    predicate ComposeRuns(segments: seq<Segment>, skipAudio: bool, skipVideo: bool, services: Services) {
      SummaryPrintable(segments) && segments != [] && AllDrawn(scenesDir, segments, services.render)
      && !skipAudio && !skipVideo && AllSpoken(tts, AudioItemsOf(segments), services.speak)
    }

    /**
     * The manifest a run over the parsed segments ends with, stage by stage, or `None` when a
     * stage raises: a time the summary cannot print, no segment, a scene that cannot be drawn,
     * a voiceover that cannot be spoken, or a composition that fails.
     */
    function Outcome(scriptPath: string, segments: seq<Segment>, outputFilename: Option<string>,
                     skipAudio: bool, skipVideo: bool, services: Services): Option<Manifest>
    {
      if !SummaryPrintable(segments) || segments == [] || !AllDrawn(scenesDir, segments, services.render) then None
      else
        var scenes := ScenePathsOf(scenesDir, segments);
        var items := AudioItemsOf(segments);
        if !skipAudio && !AllSpoken(tts, items, services.speak) then None
        else
          var audio := if skipAudio then [] else SpokenPaths(tts, items, services.speak);
          if skipAudio || skipVideo then Some(Manifest(scriptPath, |segments|, scenes, audio, None, outputDir))
          else
            var v := ComposeOutcome(videoDir, VideoName(scriptPath, outputFilename),
                                    Clips(ConfigsOf(segments, scenes, audio), services.media), services.write);
            if v.Err? then None
            else Some(Manifest(scriptPath, |segments|, scenes, audio, Some(v.value), outputDir))
    }

    /** A run whose summary raises saves nothing and composes nothing. */
    lemma UnprintableOutcome(scriptPath: string, segments: seq<Segment>, outputFilename: Option<string>,
                             skipAudio: bool, skipVideo: bool, services: Services)
      requires !SummaryPrintable(segments)
      ensures Outcome(scriptPath, segments, outputFilename, skipAudio, skipVideo, services) == None
      ensures !ComposeRuns(segments, skipAudio, skipVideo, services)
    {
    }

    /** A run without segments, or with a scene that cannot be drawn, saves nothing and composes nothing. */
    lemma UndrawnOutcome(scriptPath: string, segments: seq<Segment>, outputFilename: Option<string>,
                         skipAudio: bool, skipVideo: bool, services: Services)
      requires segments == [] || !AllDrawn(scenesDir, segments, services.render)
      ensures Outcome(scriptPath, segments, outputFilename, skipAudio, skipVideo, services) == None
      ensures !ComposeRuns(segments, skipAudio, skipVideo, services)
    {
    }

    /** A run with a voiceover that cannot be spoken saves nothing and composes nothing. */
    lemma UnspokenOutcome(scriptPath: string, segments: seq<Segment>, outputFilename: Option<string>,
                          skipAudio: bool, skipVideo: bool, services: Services)
      requires segments != [] && AllDrawn(scenesDir, segments, services.render)
      requires !skipAudio && !AllSpoken(tts, AudioItemsOf(segments), services.speak)
      ensures Outcome(scriptPath, segments, outputFilename, skipAudio, skipVideo, services) == None
      ensures !ComposeRuns(segments, skipAudio, skipVideo, services)
    {
    }

    /** A run that skips audio or video ends with a manifest without video. */
    lemma UncomposedOutcome(scriptPath: string, segments: seq<Segment>, outputFilename: Option<string>,
                            skipAudio: bool, skipVideo: bool, services: Services, audio: seq<string>)
      requires SummaryPrintable(segments) && segments != [] && AllDrawn(scenesDir, segments, services.render)
      requires skipAudio || skipVideo
      requires skipAudio ==> audio == []
      requires !skipAudio ==>
        AllSpoken(tts, AudioItemsOf(segments), services.speak)
        && audio == SpokenPaths(tts, AudioItemsOf(segments), services.speak)
      ensures Outcome(scriptPath, segments, outputFilename, skipAudio, skipVideo, services) ==
        Some(Manifest(scriptPath, |segments|, ScenePathsOf(scenesDir, segments), audio, None, outputDir))
      ensures !ComposeRuns(segments, skipAudio, skipVideo, services)
    {
    }

    /** A run that composes ends with the composition's outcome. */
    lemma ComposedOutcome(scriptPath: string, segments: seq<Segment>, outputFilename: Option<string>,
                          skipAudio: bool, skipVideo: bool, services: Services, v: Result<string>)
      requires ComposeRuns(segments, skipAudio, skipVideo, services)
      requires v == ComposeOutcome(videoDir, VideoName(scriptPath, outputFilename),
        Clips(ConfigsOf(segments, ScenePathsOf(scenesDir, segments),
                        SpokenPaths(tts, AudioItemsOf(segments), services.speak)), services.media),
        services.write)
      ensures Outcome(scriptPath, segments, outputFilename, skipAudio, skipVideo, services) ==
        if v.Err? then None
        else Some(Manifest(scriptPath, |segments|, ScenePathsOf(scenesDir, segments),
                           SpokenPaths(tts, AudioItemsOf(segments), services.speak), Some(v.value), outputDir))
    {
    }

    /**
     * A run fails exactly when the summary cannot print a time, there is no segment, a scene
     * cannot be drawn, a voiceover that is asked for cannot be spoken, or the composition that is
     * asked for fails.
     */
    lemma OutcomeFails(scriptPath: string, segments: seq<Segment>, outputFilename: Option<string>,
                       skipAudio: bool, skipVideo: bool, services: Services)
      ensures Outcome(scriptPath, segments, outputFilename, skipAudio, skipVideo, services).None? <==>
        !SummaryPrintable(segments) || segments == [] || !AllDrawn(scenesDir, segments, services.render)
        || (!skipAudio && !AllSpoken(tts, AudioItemsOf(segments), services.speak))
        || (ComposeRuns(segments, skipAudio, skipVideo, services)
            && ComposeOutcome(videoDir, VideoName(scriptPath, outputFilename),
                 Clips(ConfigsOf(segments, ScenePathsOf(scenesDir, segments),
                                 SpokenPaths(tts, AudioItemsOf(segments), services.speak)), services.media),
                 services.write).Err?)
    {
    }

    /**
     * A manifest records the script, the number of segments and the output directory; the scene
     * paths of the segments; no audio when audio is skipped and one file per segment otherwise;
     * and a video, in the video directory under the video name, exactly when neither audio nor
     * video is skipped.
     */
    lemma ManifestShape(scriptPath: string, segments: seq<Segment>, outputFilename: Option<string>,
                        skipAudio: bool, skipVideo: bool, services: Services)
      requires Outcome(scriptPath, segments, outputFilename, skipAudio, skipVideo, services).Some?
      ensures var m := Outcome(scriptPath, segments, outputFilename, skipAudio, skipVideo, services).value;
        m.script == scriptPath && m.segments == |segments| > 0 && m.outputDir == outputDir
        && m.scenes == ScenePathsOf(scenesDir, segments)
        && (skipAudio ==> m.audio == [])
        && (!skipAudio ==> |m.audio| == |segments|)
        && (m.video.Some? <==> !skipAudio && !skipVideo)
        && (m.video.Some? ==> m.video.value == PathJoin(videoDir, VideoName(scriptPath, outputFilename)))
    {
      if skipAudio || skipVideo {
        var audio := if skipAudio then [] else SpokenPaths(tts, AudioItemsOf(segments), services.speak);
        UncomposedOutcome(scriptPath, segments, outputFilename, skipAudio, skipVideo, services, audio);
      } else {
        var v := ComposeOutcome(videoDir, VideoName(scriptPath, outputFilename),
          Clips(ConfigsOf(segments, ScenePathsOf(scenesDir, segments),
                          SpokenPaths(tts, AudioItemsOf(segments), services.speak)), services.media),
          services.write);
        ComposedOutcome(scriptPath, segments, outputFilename, skipAudio, skipVideo, services, v);
      }
    }

    /**
     * The scenes a manifest lists: one per segment, drawn to its scene path, pairwise
     * different files.
     */
    lemma ManifestScenes(scriptPath: string, segments: seq<Segment>, outputFilename: Option<string>,
                         skipAudio: bool, skipVideo: bool, services: Services)
      requires Outcome(scriptPath, segments, outputFilename, skipAudio, skipVideo, services).Some?
      ensures var m := Outcome(scriptPath, segments, outputFilename, skipAudio, skipVideo, services).value;
        |m.scenes| == |segments|
        && (forall k :: 0 <= k < |segments| ==>
              m.scenes[k] == ScenePath(scenesDir, segments[k], k + 1)
              && services.render(SceneRequestFor(scenesDir, segments[k], k + 1)))
        && (forall j, k :: 0 <= j < k < |m.scenes| ==> m.scenes[j] != m.scenes[k])
    {
      ManifestShape(scriptPath, segments, outputFilename, skipAudio, skipVideo, services);
      ScenePathsOfDistinct(scenesDir, segments);
      ScenePathsUpToSpec(scenesDir, segments, |segments|);
      DrawnUpToSpec(scenesDir, segments, services.render, |segments|);
    }

    /**
     * When audio is generated, the file of segment `k` is `voiceover_segment_<k>` with the
     * engine's suffix in the audio directory, the engine spoke the segment's cleaned voiceover
     * into it, and the files are pairwise different.
     */
    lemma ManifestAudio(scriptPath: string, segments: seq<Segment>, outputFilename: Option<string>,
                        skipAudio: bool, skipVideo: bool, services: Services)
      requires Valid()
      requires Outcome(scriptPath, segments, outputFilename, skipAudio, skipVideo, services).Some? && !skipAudio
      ensures var m := Outcome(scriptPath, segments, outputFilename, skipAudio, skipVideo, services).value;
        |m.audio| == |segments|
        && (forall k :: 0 <= k < |segments| ==>
              m.audio[k] == PathJoin(audioDir, "voiceover_" + SegmentId(k + 1) + tts.provider.AudioSuffix())
              && services.speak(tts.provider, CleanText(Join(" ", segments[k].voiceover)), m.audio[k]))
        && (forall j, k :: 0 <= j < k < |segments| ==> m.audio[j] != m.audio[k])
    {
      SpokenPathsSpec(tts, segments, services.speak);
      SpokenPathsDistinct(tts, segments, services.speak);
    }

    /** With audio skipped, the outcome does not depend on the speech engine, the media library or the writer. */
    lemma SkippedAudioIgnoresSpeech(scriptPath: string, segments: seq<Segment>, outputFilename: Option<string>,
                                    skipVideo: bool, s1: Services, s2: Services)
      requires s1.render == s2.render
      ensures Outcome(scriptPath, segments, outputFilename, true, skipVideo, s1)
        == Outcome(scriptPath, segments, outputFilename, true, skipVideo, s2)
    {
    }

    /** With video skipped, the outcome does not depend on the media library or the writer. */
    lemma SkippedVideoIgnoresComposition(scriptPath: string, segments: seq<Segment>, outputFilename: Option<string>,
                                         skipAudio: bool, s1: Services, s2: Services)
      requires s1.render == s2.render && s1.speak == s2.speak
      ensures Outcome(scriptPath, segments, outputFilename, skipAudio, true, s1)
        == Outcome(scriptPath, segments, outputFilename, skipAudio, true, s2)
    {
    }

    /** `_generate_audio_for_segments`: the batch of the segments, spoken by the text-to-speech component. */
    method AudioStage(segments: seq<Segment>, speak: (Provider, string, string) -> bool) returns (r: Result<seq<string>>)
      ensures r.Ok? <==> AllSpoken(tts, AudioItemsOf(segments), speak)
      ensures r.Ok? ==> r.value == SpokenPaths(tts, AudioItemsOf(segments), speak)
    {
      var items := PrepareAudioItems(segments);
      r := GenerateBatch(tts, items, speak);
      if r.Ok? {
        SpokenPathsAre(tts, items, speak, r.value);
      }
    }

    /**
     * The stages of `generate_from_script` after the summary is printed: fail without segments, draw, speak
     * unless audio is skipped, compose unless audio or video is skipped, then save the manifest
     * as `manifest.json` in the output directory. A run that raises saves no manifest; the
     * project file is written whenever composition starts.
     */
    method RunStages(scriptPath: string, segments: seq<Segment>, outputFilename: Option<string>,
                     skipAudio: bool, skipVideo: bool, services: Services,
                     manifests: ManifestStore, projects: ProjectStore)
      returns (r: Result<Manifest>)
      requires Valid() && SummaryPrintable(segments)
      modifies manifests, projects
      ensures segments == [] ==> r == Err("No segments found in script")
      ensures r.Ok? <==> Outcome(scriptPath, segments, outputFilename, skipAudio, skipVideo, services).Some?
      ensures r.Ok? ==> r.value == Outcome(scriptPath, segments, outputFilename, skipAudio, skipVideo, services).value
      ensures r.Ok? ==> manifests.files == old(manifests.files)[PathJoin(outputDir, "manifest.json") := r.value]
      ensures r.Err? ==> manifests.files == old(manifests.files)
      ensures ComposeRuns(segments, skipAudio, skipVideo, services) ==>
        projects.files == old(projects.files)[PathJoin(outputDir, "project.json") := ProjectOf(segments, services.speak)]
      ensures !ComposeRuns(segments, skipAudio, skipVideo, services) ==> projects.files == old(projects.files)
    {
      if segments == [] {
        UndrawnOutcome(scriptPath, segments, outputFilename, skipAudio, skipVideo, services);
        return Err("No segments found in script");
      }
      var scenes := GenerateScenes(scenesDir, segments, services.render);
      if scenes.Err? {
        UndrawnOutcome(scriptPath, segments, outputFilename, skipAudio, skipVideo, services);
        return Err(scenes.msg);
      }
      var audioPaths: seq<string> := [];
      if !skipAudio {
        var audio := AudioStage(segments, services.speak);
        if audio.Err? {
          UnspokenOutcome(scriptPath, segments, outputFilename, skipAudio, skipVideo, services);
          return Err(audio.msg);
        }
        audioPaths := audio.value;
      }
      r := FinishStages(scriptPath, segments, outputFilename, skipAudio, skipVideo, services,
                        scenes.value, audioPaths, manifests, projects);
    }

    /** Once the scenes are drawn and the voiceovers spoken: compose unless a stage is skipped, then save the manifest. */
    method FinishStages(scriptPath: string, segments: seq<Segment>, outputFilename: Option<string>,
                        skipAudio: bool, skipVideo: bool, services: Services,
                        scenes: seq<string>, audioPaths: seq<string>,
                        manifests: ManifestStore, projects: ProjectStore)
      returns (r: Result<Manifest>)
      requires SummaryPrintable(segments) && segments != [] && AllDrawn(scenesDir, segments, services.render)
      requires scenes == ScenePathsOf(scenesDir, segments)
      requires skipAudio ==> audioPaths == []
      requires !skipAudio ==>
        AllSpoken(tts, AudioItemsOf(segments), services.speak)
        && audioPaths == SpokenPaths(tts, AudioItemsOf(segments), services.speak)
      requires Valid()
      modifies manifests, projects
      ensures segments == [] ==> r == Err("No segments found in script")
      ensures r.Ok? <==> Outcome(scriptPath, segments, outputFilename, skipAudio, skipVideo, services).Some?
      ensures r.Ok? ==> r.value == Outcome(scriptPath, segments, outputFilename, skipAudio, skipVideo, services).value
      ensures r.Ok? ==> manifests.files == old(manifests.files)[PathJoin(outputDir, "manifest.json") := r.value]
      ensures r.Err? ==> manifests.files == old(manifests.files)
      ensures ComposeRuns(segments, skipAudio, skipVideo, services) ==>
        projects.files == old(projects.files)[PathJoin(outputDir, "project.json") := ProjectOf(segments, services.speak)]
      ensures !ComposeRuns(segments, skipAudio, skipVideo, services) ==> projects.files == old(projects.files)
    {
      var videoPath: Option<string> := None;
      if !skipVideo && !skipAudio {
        var v := ComposeStage(segments, scenes, audioPaths, VideoName(scriptPath, outputFilename), services, projects);
        ComposedOutcome(scriptPath, segments, outputFilename, skipAudio, skipVideo, services, v);
        if v.Err? {
          return Err(v.msg);
        }
        videoPath := Some(v.value);
      } else {
        UncomposedOutcome(scriptPath, segments, outputFilename, skipAudio, skipVideo, services, audioPaths);
      }
      var manifest := Manifest(scriptPath, |segments|, scenes, audioPaths, videoPath, outputDir);
      manifests.files := manifests.files[PathJoin(outputDir, "manifest.json") := manifest];
      return Ok(manifest);
    }

    /** `generate_from_script`: the script's segments, their summary, then the stages over them. */
    method GenerateFromScript(scriptPath: string, rawText: string, outputFilename: Option<string>,
                              skipAudio: bool, skipVideo: bool, services: Services,
                              manifests: ManifestStore, projects: ProjectStore)
      returns (r: Result<Manifest>)
      requires Valid()
      modifies manifests, projects
      ensures var segments := ParseScript(rawText);
        (!SummaryPrintable(segments) ==> r == Err(FloatOverflowError))
        && (segments == [] ==> r == Err("No segments found in script"))
        && (r.Ok? <==> Outcome(scriptPath, segments, outputFilename, skipAudio, skipVideo, services).Some?)
        && (r.Ok? ==> r.value == Outcome(scriptPath, segments, outputFilename, skipAudio, skipVideo, services).value)
        && (r.Ok? ==> manifests.files == old(manifests.files)[PathJoin(outputDir, "manifest.json") := r.value])
        && (r.Err? ==> manifests.files == old(manifests.files))
        && (ComposeRuns(segments, skipAudio, skipVideo, services) ==>
              projects.files == old(projects.files)[PathJoin(outputDir, "project.json") := ProjectOf(segments, services.speak)])
        && (!ComposeRuns(segments, skipAudio, skipVideo, services) ==> projects.files == old(projects.files))
    {
      var parser := new ScriptParser(scriptPath, rawText);
      var segments := parser.Parse();
      var printed := parser.PrintSummary();
      if printed.Err? {
        UnprintableOutcome(scriptPath, segments, outputFilename, skipAudio, skipVideo, services);
        return Err(printed.msg);
      }
      r := RunStages(scriptPath, segments, outputFilename, skipAudio, skipVideo, services, manifests, projects);
    }

    /** The project file of a run that composes: version 1.0, the compositor's settings and the scene configurations. */
    function ProjectOf(segments: seq<Segment>, speak: (Provider, string, string) -> bool): Project
      reads compositor
      requires AllSpoken(tts, AudioItemsOf(segments), speak)
    {
      Project(Some("1.0"), Some(compositor.resolution), Some(compositor.fps),
              Some(ConfigsOf(segments, ScenePathsOf(scenesDir, segments), SpokenPaths(tts, AudioItemsOf(segments), speak))))
    }
  }

  /** Different segments' scene paths differ. */
  lemma ScenePathsOfDistinct(scenesDir: string, segments: seq<Segment>)
    ensures forall j, k :: 0 <= j < k < |segments| ==>
      ScenePathsOf(scenesDir, segments)[j] != ScenePathsOf(scenesDir, segments)[k]
  {
    forall j, k | 0 <= j < k < |segments|
      ensures ScenePathsOf(scenesDir, segments)[j] != ScenePathsOf(scenesDir, segments)[k]
    {
      ScenePathsDiffer(scenesDir, segments, j, k);
    }
  }

  lemma ScenePathsDiffer(scenesDir: string, segments: seq<Segment>, j: nat, k: nat)
    requires j < k < |segments|
    ensures ScenePathsOf(scenesDir, segments)[j] != ScenePathsOf(scenesDir, segments)[k]
  {
    ScenePathIndexAt(scenesDir, segments, j);
    ScenePathIndexAt(scenesDir, segments, k);
  }

  /** Path `k` of the scene paths carries the index `k + 1`. */
  lemma ScenePathIndexAt(scenesDir: string, segments: seq<Segment>, k: nat)
    requires k < |segments|
    ensures ScenePathIndex(scenesDir, ScenePathsOf(scenesDir, segments)[k]) == k + 1
  {
    ScenePathAt(scenesDir, segments, |segments|, k);
    SceneFileIndex(scenesDir, k + 1, Classify(segments[k]));
  }

  /** The audio path of segment `k` is its default voiceover path, and the engine spoke its cleaned voiceover into it. */
  lemma SpokenPathsSpec(g: TTSGenerator, segments: seq<Segment>, speak: (Provider, string, string) -> bool)
    requires AllSpoken(g, AudioItemsOf(segments), speak)
    ensures forall k :: 0 <= k < |segments| ==>
      SpokenPaths(g, AudioItemsOf(segments), speak)[k]
        == PathJoin(g.outputDir, "voiceover_" + SegmentId(k + 1) + g.provider.AudioSuffix())
      && speak(g.provider, CleanText(Join(" ", segments[k].voiceover)), SpokenPaths(g, AudioItemsOf(segments), speak)[k])
  {
    forall k | 0 <= k < |segments|
      ensures SpokenPaths(g, AudioItemsOf(segments), speak)[k]
        == PathJoin(g.outputDir, "voiceover_" + SegmentId(k + 1) + g.provider.AudioSuffix())
      ensures speak(g.provider, CleanText(Join(" ", segments[k].voiceover)), SpokenPaths(g, AudioItemsOf(segments), speak)[k])
    {
      SpokenPathOf(g, segments, speak, k);
    }
  }

  lemma SpokenPathOf(g: TTSGenerator, segments: seq<Segment>, speak: (Provider, string, string) -> bool, k: nat)
    requires AllSpoken(g, AudioItemsOf(segments), speak) && k < |segments|
    ensures SpokenPaths(g, AudioItemsOf(segments), speak)[k]
      == PathJoin(g.outputDir, "voiceover_" + SegmentId(k + 1) + g.provider.AudioSuffix())
    ensures speak(g.provider, CleanText(Join(" ", segments[k].voiceover)), SpokenPaths(g, AudioItemsOf(segments), speak)[k])
  {
    var items := AudioItemsOf(segments);
    AudioItemsText(segments, k);
    var item := items[k];
    assert BatchItem(g, item, speak).Ok?;
    VoiceoverDefaultPath(g, CleanText(item.1), item.0, speak);
    assert SpokenPaths(g, items, speak)[k] == BatchItem(g, item, speak).value;
  }

  /** Different segments' audio files differ. */
  lemma SpokenPathsDistinct(g: TTSGenerator, segments: seq<Segment>, speak: (Provider, string, string) -> bool)
    requires AllSpoken(g, AudioItemsOf(segments), speak)
    ensures forall j, k :: 0 <= j < k < |segments| ==>
      SpokenPaths(g, AudioItemsOf(segments), speak)[j] != SpokenPaths(g, AudioItemsOf(segments), speak)[k]
  {
    var paths := SpokenPaths(g, AudioItemsOf(segments), speak);
    forall k | 0 <= k < |segments|
      ensures paths[k] == PathJoin(g.outputDir, "voiceover_" + SegmentId(k + 1) + g.provider.AudioSuffix())
    {
      SpokenPathOf(g, segments, speak, k);
    }
    VoiceoverPathsDistinct(g.outputDir, g.provider.AudioSuffix(), |segments|);
  }

  /** The voiceover files of segment ids `1` to `n` are pairwise different. */
  lemma VoiceoverPathsDistinct(dir: string, suf: string, n: nat)
    ensures forall i, j :: 1 <= i < j <= n ==>
      PathJoin(dir, "voiceover_" + SegmentId(i) + suf) != PathJoin(dir, "voiceover_" + SegmentId(j) + suf)
  {
    forall i, j | 1 <= i < j <= n
      ensures PathJoin(dir, "voiceover_" + SegmentId(i) + suf) != PathJoin(dir, "voiceover_" + SegmentId(j) + suf)
    {
      SegmentIdsDiffer(i, j);
      VoiceoverPathsDiffer(dir, SegmentId(i), SegmentId(j), suf);
    }
  }

  /** Voiceover files of different ids in one directory differ. */
  lemma VoiceoverPathsDiffer(dir: string, x: string, y: string, suf: string)
    requires x != y
    ensures PathJoin(dir, "voiceover_" + x + suf) != PathJoin(dir, "voiceover_" + y + suf)
  {
    var a := "voiceover_" + x + suf;
    var b := "voiceover_" + y + suf;
    assert PathJoin(dir, a)[|dir| + 1..] == a;
    assert PathJoin(dir, b)[|dir| + 1..] == b;
    if |x| == |y| {
      assert a[10..10 + |x|] == x;
      assert b[10..10 + |y|] == y;
    } else {
      assert |a| != |b|;
    }
  }

  /** The paths a successful batch returns are its spoken paths. */
  lemma SpokenPathsAre(g: TTSGenerator, items: seq<(string, string)>, speak: (Provider, string, string) -> bool,
                       paths: seq<string>)
    requires |paths| == |items| && forall k :: 0 <= k < |items| ==> Ok(paths[k]) == BatchItem(g, items[k], speak)
    ensures AllSpoken(g, items, speak) && paths == SpokenPaths(g, items, speak)
  {
  }

  /**
   * `VideoGenerator(...)`: the text-to-speech component is built for the `audio` subdirectory
   * and its failure is the constructor's; then the compositor fails when MoviePy does not
   * import. The language-model client cannot fail.
   */
  method NewVideoGenerator(outputDir: string, ttsProvider: string, resolution: (int, int), fps: int,
                           useLlmForScenes: bool, llmEndpoint: Option<string>,
                           env: Environment, endpointVar: Option<string>)
    returns (r: Result<VideoGenerator>)
    ensures r.Err? <==> NewTTSGenerator(ttsProvider, PathJoin(outputDir, "audio"), NoArgs, env).Err? || env.moviepyError.Some?
    ensures NewTTSGenerator(ttsProvider, PathJoin(outputDir, "audio"), NoArgs, env).Err? ==>
      r == Err(NewTTSGenerator(ttsProvider, PathJoin(outputDir, "audio"), NoArgs, env).msg)
    ensures NewTTSGenerator(ttsProvider, PathJoin(outputDir, "audio"), NoArgs, env).Ok? && env.moviepyError.Some? ==>
      r == Err(MoviepyMissing(env.moviepyError.value))
    ensures r.Ok? ==>
      fresh(r.value) && r.value.Valid() && r.value.outputDir == outputDir
      && r.value.tts == NewTTSGenerator(ttsProvider, PathJoin(outputDir, "audio"), NoArgs, env).value
      && r.value.compositor.resolution == resolution && r.value.compositor.fps == fps
      && r.value.useLlmForScenes == useLlmForScenes && (r.value.llmClient.Some? <==> useLlmForScenes)
  {
    var tts := NewTTSGenerator(ttsProvider, PathJoin(outputDir, "audio"), NoArgs, env);
    if tts.Err? {
      return Err(tts.msg);
    }
    if env.moviepyError.Some? {
      return Err(MoviepyMissing(env.moviepyError.value));
    }
    var g := new VideoGenerator(outputDir, tts.value, resolution, fps, useLlmForScenes, llmEndpoint, endpointVar);
    return Ok(g);
  }
}

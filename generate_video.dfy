/**
 * The command line: the options and their defaults, Python's `int()` on the resolution and
 * frame-rate texts, the checks made before anything is built (the script exists, then the
 * resolution parses), the generator's construction and the run, and the exit status of each
 * way the command can end.
 */
module Cli {
  import opened Wrappers
  import opened Text
  import opened Paths
  import opened ScriptParser
  import opened TTS
  import opened Compositor
  import opened Orchestrator
  import LLM

  // ---------------------------------------------------------------------------
  // Python's int() on text

  /** Every character is a digit or an underscore. */
  predicate GroupChars(s: string) {
    forall k :: 0 <= k < |s| ==> IsDigit(s[k]) || s[k] == '_'
  }

  /** A run of decimal digits in which single underscores may separate digits. */
  predicate DigitGroups(s: string) {
    |s| > 0 && IsDigit(s[0]) && IsDigit(s[|s| - 1]) && GroupChars(s)
    && (forall k :: 0 <= k < |s| - 1 ==> s[k] == '_' ==> s[k + 1] != '_')
  }

  /** The digits of `s`, its underscores dropped. */
  function DropUnderscores(s: string): (r: string)
    requires GroupChars(s)
    ensures AllDigits(r)
  {
    if s == [] then []
    else
      var rest := DropUnderscores(s[1..]);
      if s[0] == '_' then rest else [s[0]] + rest
  }

  /** Digit groups read as a natural number; anything else, or more digits than `int()` converts, is refused. */
  function Unsigned(b: string): Option<int> {
    if DigitGroups(b) && |DropUnderscores(b)| <= IntMaxStrDigits then Some(Val(DropUnderscores(b))) else None
  }

  /** A stripped integer literal: one sign may lead the digit groups. */
  function IntLiteral(t: string): Option<int> {
    if |t| > 0 && t[0] == '-' then
      match Unsigned(t[1..])
      case None => None
      case Some(v) => Some(-v)
    else if |t| > 0 && t[0] == '+' then Unsigned(t[1..])
    else Unsigned(t)
  }

  /** `int(s)`: surrounding whitespace is ignored; what is left must be an integer literal, else `ValueError` (`None`). */
  function PyInt(s: string): Option<int> {
    IntLiteral(Strip(s))
  }

  lemma {:induction false} DropNoUnderscores(s: string)
    requires AllDigits(s)
    ensures DropUnderscores(s) == s
  {
    if s != [] {
      DropNoUnderscores(s[1..]);
      assert [s[0]] + s[1..] == s;
    }
  }

  /** A non-empty run of digits is a digit group of its own value, with nothing to strip, unless it is too long. */
  lemma PlainDigits(d: string)
    requires |d| > 0 && AllDigits(d)
    ensures Strip(d) == d && Unsigned(d) == if |d| <= IntMaxStrDigits then Some(Val(d)) else None
  {
    assert IsDigit(d[0]) && IsDigit(d[|d| - 1]);
    StripOfStripped(d);
    DropNoUnderscores(d);
  }

  /** `int(str(n)) == n`, and `int("-" + str(n)) == -n`, for `n` within the digit limit; longer ones raise. */
  lemma PyIntOfDigits(n: nat)
    ensures PyInt(NatToDigits(n)) == if |NatToDigits(n)| <= IntMaxStrDigits then Some(n) else None
    ensures PyInt("-" + NatToDigits(n)) == if |NatToDigits(n)| <= IntMaxStrDigits then Some(-(n as int)) else None
  {
    var d := NatToDigits(n);
    PlainDigits(d);
    assert IntLiteral(d) == Unsigned(d);
    NegativeLiteral(d);
  }

  lemma NegativeLiteral(d: string)
    requires |d| > 0 && AllDigits(d)
    ensures PyInt("-" + d) == if |d| <= IntMaxStrDigits then Some(-(Val(d) as int)) else None
  {
    PlainDigits(d);
    MinusDigits(d);
    assert IntLiteral("-" + d) == if |d| <= IntMaxStrDigits then Some(-(Val(d) as int)) else None;
    LiteralOfStripped("-" + d);
  }

  lemma MinusDigits(d: string)
    requires |d| > 0 && AllDigits(d)
    ensures ("-" + d)[0] == '-' && ("-" + d)[1..] == d && IsStripped("-" + d)
  {
    var m := "-" + d;
    assert m[1..] == d;
    assert m[|m| - 1] == d[|d| - 1];
  }

  lemma LiteralOfStripped(s: string)
    requires IsStripped(s)
    ensures PyInt(s) == IntLiteral(s)
  {
    StripOfStripped(s);
  }

  /** Whitespace around the text does not change its value. */
  lemma PyIntIgnoresSpace(s: string)
    ensures PyInt(Strip(s)) == PyInt(s)
  {
    StripOfStripped(Strip(s));
  }

  lemma GroupCharsConcat(a: string, b: string)
    requires GroupChars(a) && GroupChars(b)
    ensures GroupChars(a + b)
  {
    forall k | 0 <= k < |a + b|
      ensures IsDigit((a + b)[k]) || (a + b)[k] == '_'
    {
      if k < |a| {
        assert (a + b)[k] == a[k];
      } else {
        assert (a + b)[k] == b[k - |a|];
      }
    }
  }

  lemma {:induction false} DropUnderscoresConcat(a: string, b: string)
    requires GroupChars(a) && GroupChars(b)
    ensures GroupChars(a + b)
    ensures DropUnderscores(a + b) == DropUnderscores(a) + DropUnderscores(b)
  {
    GroupCharsConcat(a, b);
    if a == [] {
      assert a + b == b;
    } else {
      assert GroupChars(a[1..]) by {
        forall k | 0 <= k < |a| - 1
          ensures IsDigit(a[1..][k]) || a[1..][k] == '_'
        {
          assert a[1..][k] == a[k + 1];
        }
      }
      DropUnderscoresConcat(a[1..], b);
      assert (a + b)[0] == a[0];
      assert (a + b)[1..] == a[1..] + b;
    }
  }

  /**
   * An underscore between two runs of digits does not change the value: `int("1_000") == 1000`;
   * the digit limit counts the digits only.
   */
  lemma PyIntGrouped(a: string, b: string)
    requires |a| > 0 && |b| > 0 && AllDigits(a) && AllDigits(b)
    ensures PyInt(a + "_" + b) == if |a| + |b| <= IntMaxStrDigits then Some(Val(a + b)) else None
  {
    var s := a + "_" + b;
    GroupedShape(a, b);
    StripOfStripped(s);
    GroupedDigits(a, b);
    assert IntLiteral(s) == Unsigned(s);
  }

  lemma GroupedShape(a: string, b: string)
    requires |a| > 0 && |b| > 0 && AllDigits(a) && AllDigits(b)
    ensures IsStripped(a + "_" + b) && DigitGroups(a + "_" + b)
  {
    var s := a + "_" + b;
    assert s[0] == a[0] && s[|s| - 1] == b[|b| - 1];
    GroupCharsConcat(a, "_");
    GroupCharsConcat(a + "_", b);
    forall k | 0 <= k < |s| - 1 && s[k] == '_'
      ensures s[k + 1] != '_'
    {
      assert k == |a|;
      assert s[k + 1] == b[0];
    }
  }

  lemma GroupedDigits(a: string, b: string)
    requires |a| > 0 && |b| > 0 && AllDigits(a) && AllDigits(b)
    ensures GroupChars(a + "_" + b)
    ensures DropUnderscores(a + "_" + b) == a + b
  {
    GroupCharsConcat(a, "_");
    DropUnderscoresConcat(a, "_");
    DropUnderscoresConcat(a + "_", b);
    DropNoUnderscores(a);
    DropNoUnderscores(b);
    assert DropUnderscores("_") == [];
    assert DropUnderscores(a + "_") == a;
  }

  /** A run of digits longer than the limit is refused, however small its value. */
  lemma PyIntTooLong(d: string)
    requires AllDigits(d) && |d| > IntMaxStrDigits
    ensures PyInt(d) == None && PyInt("-" + d) == None
  {
    PlainDigits(d);
    NegativeLiteral(d);
    assert IntLiteral(d) == Unsigned(d);
  }

  /** Empty text, a bare sign, a leading underscore and a doubled underscore are refused. */
  lemma PyIntRefuses()
    ensures PyInt("") == None && PyInt("-") == None
    ensures PyInt("_1") == None && PyInt("1__0") == None && PyInt("1_") == None
  {
    assert Strip("") == "";
    var t := "1__0";
    assert t[1] == '_' && t[2] == '_';
    assert !DigitGroups(t);
  }

  // ---------------------------------------------------------------------------
  // The resolution option

  /**
   * The resolution text splits at `x` into exactly two pieces, each read by `int()`; every
   * other text is a `ValueError`.
   */
  function ParseResolution(text: string): Option<(int, int)> {
    var parts := Split(text, 'x');
    if |parts| != 2 then None
    else
      match (PyInt(parts[0]), PyInt(parts[1]))
      case (Some(w), Some(h)) => Some((w, h))
      case _ => None
  }

  /** Text with one `x` parses exactly when both sides are integers, to those integers. */
  lemma ParseResolutionSpec(a: string, b: string)
    requires 'x' !in a && 'x' !in b
    ensures ParseResolution(a + "x" + b) ==
      if PyInt(a).Some? && PyInt(b).Some? then Some((PyInt(a).value, PyInt(b).value)) else None
  {
    assert Join(['x'], [a, b]) == a + "x" + b;
    SplitJoin([a, b], 'x');
  }

  /** A resolution is accepted only with exactly one lower-case `x` in it. */
  lemma ResolutionNeedsOneX(text: string)
    requires ParseResolution(text).Some?
    ensures multiset(text)['x'] == 1
  {
    SplitCount(text, 'x');
  }

  lemma DigitsFree(n: nat)
    ensures 'x' !in NatToDigits(n)
  {
    var d := NatToDigits(n);
    assert forall k :: 0 <= k < |d| ==> IsDigit(d[k]);
  }

  /** Printing a resolution as `WIDTHxHEIGHT` and parsing it gives it back, unless a side is too long for `int()`. */
  lemma ResolutionRoundTrip(w: nat, h: nat)
    ensures ParseResolution(NatToDigits(w) + "x" + NatToDigits(h)) ==
      if |NatToDigits(w)| <= IntMaxStrDigits && |NatToDigits(h)| <= IntMaxStrDigits then Some((w, h)) else None
  {
    DigitsFree(w);
    DigitsFree(h);
    PyIntOfDigits(w);
    PyIntOfDigits(h);
    ParseResolutionSpec(NatToDigits(w), NatToDigits(h));
  }

  /** The default resolution is 1920 by 1080. */
  lemma DefaultResolution()
    ensures ParseResolution(DefaultResolutionText) == Some((1920, 1080))
  {
    DigitsOf1920();
    ResolutionRoundTrip(1920, 1080);
  }

  /** An upper-case `X` is not a separator. */
  lemma UpperXRefused()
    ensures ParseResolution("1920X1080") == None
  {
    var t := "1920X1080";
    assert forall k :: 0 <= k < |t| ==> t[k] != 'x';
    NoXRefused(t);
  }

  lemma DigitsOf1920()
    ensures NatToDigits(1920) + "x" + NatToDigits(1080) == DefaultResolutionText
  {
    assert NatToDigits(1920) == "1920";
    assert NatToDigits(1080) == "1080";
  }

  /** Text without a lower-case `x` is refused. */
  lemma NoXRefused(text: string)
    requires 'x' !in text
    ensures ParseResolution(text) == None
  {
    SplitCount(text, 'x');
  }

  // ---------------------------------------------------------------------------
  // The options

  /** The parsed command line; `fps` is the text given with `--fps`, `None` when the option is absent. */
  datatype Args = Args(
    script: string,
    output: Option<string>,
    outputDir: string,
    tts: string,
    resolution: string,
    fps: Option<string>,
    skipAudio: bool,
    skipVideo: bool,
    llmEndpoint: Option<string>)

  const TtsChoices: seq<string> := ["system", "elevenlabs", "gtts"]
  const DefaultResolutionText: string := "1920x1080"
  const DefaultFps: int := 30

  /** The options of a command line that names only the script. */
  function Defaults(script: string): Args {
    Args(script, None, "output", "system", DefaultResolutionText, None, false, false, None)
  }

  /** What argparse accepts: a listed speech engine and an integer frame rate. */
  predicate ArgsAccepted(args: Args) {
    args.tts in TtsChoices && (args.fps.Some? ==> PyInt(args.fps.value).Some?)
  }

  /** The frame rate: the given one, or 30. */
  function Fps(args: Args): int
    requires ArgsAccepted(args)
  {
    if args.fps.None? then DefaultFps else PyInt(args.fps.value).value
  }

  /** `bool(args.llm_endpoint)`: scene generation uses the language model when an endpoint is given and non-empty. */
  function UseLlm(llmEndpoint: Option<string>): (r: bool)
    ensures r <==> llmEndpoint.Some? && llmEndpoint.value != ""
  {
    LLM.SomeText(llmEndpoint)
  }

  /** What the generator is built with. */
  datatype Settings = Settings(resolution: (int, int), fps: int, useLlm: bool)

  /** The checks before the generator is built: the script must exist, then the resolution must parse. */
  function Prepare(args: Args, scriptExists: bool): Result<Settings>
    requires ArgsAccepted(args)
  {
    if !scriptExists then Err("Script not found: " + args.script)
    else match ParseResolution(args.resolution)
      case None => Err("Invalid resolution format: " + args.resolution)
      case Some(res) => Ok(Settings(res, Fps(args), UseLlm(args.llmEndpoint)))
  }

  /**
   * A missing script is reported whatever the resolution says; otherwise the checks pass
   * exactly when the resolution parses, and the settings are the parsed resolution, the frame
   * rate and whether an endpoint was given.
   */
  lemma PrepareSpec(args: Args, scriptExists: bool)
    requires ArgsAccepted(args)
    ensures !scriptExists ==> Prepare(args, scriptExists) == Err("Script not found: " + args.script)
    ensures Prepare(args, scriptExists).Ok? <==> scriptExists && ParseResolution(args.resolution).Some?
    ensures Prepare(args, scriptExists).Ok? ==>
      Prepare(args, scriptExists).value
        == Settings(ParseResolution(args.resolution).value, Fps(args), UseLlm(args.llmEndpoint))
  {
  }

  /** With only the script named, and the script present, the run uses 1920x1080 at 30 frames a second without the model. */
  lemma DefaultsPrepare(script: string)
    ensures ArgsAccepted(Defaults(script))
    ensures Prepare(Defaults(script), true) == Ok(Settings((1920, 1080), 30, false))
  {
    DefaultResolution();
  }

  // ---------------------------------------------------------------------------
  // The command

  /** Exit status 2 for a command line argparse refuses, 1 for every other failure, 0 for a run that produced a manifest. */
  function ExitStatus(accepted: bool, produced: bool): (code: int)
    ensures code == 0 <==> accepted && produced
    ensures code == 2 <==> !accepted
    ensures code in {0, 1, 2}
  {
    if !accepted then 2 else if produced then 0 else 1
  }

  /**
   * `main`: the checks, then the generator, then the run. A refused command line or a failed
   * check builds nothing and writes nothing. Otherwise the generator is built exactly when its
   * speech engine can be and MoviePy imports, with the checked settings; and the command
   * succeeds exactly when the generator's run over the script's segments produces a manifest,
   * which is written to `manifest.json` in the output directory.
   */
  method Run(args: Args, scriptExists: bool, rawText: string, env: Environment, endpointVar: Option<string>,
             services: Services, manifests: ManifestStore, projects: ProjectStore)
    returns (code: int, generator: Option<VideoGenerator>, result: Option<Manifest>)
    modifies manifests, projects
    ensures code == ExitStatus(ArgsAccepted(args), result.Some?)
    ensures !ArgsAccepted(args) || Prepare(args, scriptExists).Err? ==>
      generator.None? && result.None? && unchanged(manifests, projects)
    ensures ArgsAccepted(args) && Prepare(args, scriptExists).Ok? ==>
      (generator.Some? <==> NewTTSGenerator(args.tts, PathJoin(args.outputDir, "audio"), NoArgs, env).Ok?
                            && env.moviepyError.None?)
    ensures generator.Some? ==>
      ArgsAccepted(args) && Prepare(args, scriptExists).Ok?
      && fresh(generator.value) && generator.value.Valid()
      && generator.value.outputDir == args.outputDir
      && generator.value.compositor.resolution == Prepare(args, scriptExists).value.resolution
      && generator.value.compositor.fps == Prepare(args, scriptExists).value.fps
      && generator.value.useLlmForScenes == Prepare(args, scriptExists).value.useLlm
      && result == generator.value.Outcome(args.script, ParseScript(rawText), args.output,
                                           args.skipAudio, args.skipVideo, services)
    ensures generator.None? ==> result.None? && unchanged(manifests, projects)
    ensures result.Some? ==> manifests.files == old(manifests.files)[PathJoin(args.outputDir, "manifest.json") := result.value]
    ensures result.None? ==> manifests.files == old(manifests.files)
    ensures generator.Some? && generator.value.ComposeRuns(ParseScript(rawText), args.skipAudio, args.skipVideo, services) ==>
      projects.files == old(projects.files)[PathJoin(args.outputDir, "project.json") := generator.value.ProjectOf(ParseScript(rawText), services.speak)]
    ensures generator.Some? && !generator.value.ComposeRuns(ParseScript(rawText), args.skipAudio, args.skipVideo, services) ==>
      projects.files == old(projects.files)
  {
    generator, result := None, None;
    if !ArgsAccepted(args) {
      return 2, generator, result;
    }
    var prepared := Prepare(args, scriptExists);
    if prepared.Err? {
      return 1, generator, result;
    }
    var settings := prepared.value;
    var built := NewVideoGenerator(args.outputDir, args.tts, settings.resolution, settings.fps,
                                   settings.useLlm, args.llmEndpoint, env, endpointVar);
    if built.Err? {
      return 1, generator, result;
    }
    generator := Some(built.value);
    code, result := Launch(built.value, args, rawText, services, manifests, projects);
  }

  /** The run of a built generator: status 0 with the manifest when it produces one, 1 otherwise. */
  method Launch(g: VideoGenerator, args: Args, rawText: string, services: Services,
                manifests: ManifestStore, projects: ProjectStore)
    returns (code: int, result: Option<Manifest>)
    requires g.Valid()
    modifies manifests, projects
    ensures code == if result.Some? then 0 else 1
    ensures result == g.Outcome(args.script, ParseScript(rawText), args.output, args.skipAudio, args.skipVideo, services)
    ensures result.Some? ==> manifests.files == old(manifests.files)[PathJoin(g.outputDir, "manifest.json") := result.value]
    ensures result.None? ==> manifests.files == old(manifests.files)
    ensures g.ComposeRuns(ParseScript(rawText), args.skipAudio, args.skipVideo, services) ==>
      projects.files == old(projects.files)[PathJoin(g.outputDir, "project.json") := g.ProjectOf(ParseScript(rawText), services.speak)]
    ensures !g.ComposeRuns(ParseScript(rawText), args.skipAudio, args.skipVideo, services) ==> projects.files == old(projects.files)
  {
    var r := g.GenerateFromScript(args.script, rawText, args.output, args.skipAudio, args.skipVideo,
                                  services, manifests, projects);
    if r.Err? {
      return 1, None;
    }
    return 0, Some(r.value);
  }
}

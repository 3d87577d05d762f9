/**
 * The video compositor: a clip per scene configuration (its duration stretched to its audio,
 * an optional fade), the collection of the clips that could be built, the output path, the
 * simple image-plus-audio video, and the project file that records the configurations.
 *
 * The media library is `Media`: whether an image loads, and the duration of an audio file
 * (or `None` when it cannot be read). Rendering is the oracle `write`.
 */
module Compositor {
  import opened Wrappers
  import opened Paths

  /** A scene configuration dictionary; an absent key is `None`. */
  datatype SceneConfig = SceneConfig(
    title: Option<string>,
    image: Option<string>,
    duration: Option<real>,
    audio: Option<string>,
    transition: Option<string>)

  /** What the model keeps of a clip: its image, its length, its audio and its fades. */
  datatype Clip = Clip(image: string, duration: real, audio: Option<string>, fadeIn: real, fadeOut: real)

  /** The media library as seen by the compositor. */
  datatype Media = Media(imageLoads: string -> bool, audioDuration: string -> Option<real>)

  const DefaultSceneDuration: real := 5.0
  const FadeLength: real := 0.5
  const DefaultOutputDir := "output/video"
  const DefaultResolution := (1920, 1080)
  const DefaultFps := 30
  const ComposeDefaultName := "final_video.mp4"
  const SimpleDefaultName := "video.mp4"
  const DefaultProjectPath := "output/project.json"

  /**
   * The `ImportError` `__init__` raises when neither MoviePy's current nor its older import
   * layout loads, with the text of the inner import error.
   */
  function MoviepyMissing(detail: string): string {
    "MoviePy not installed or incompatible: pip install moviepy. Error: " + detail
  }

  /** `create_clip_from_image`: the image for `duration`, or for the audio's duration when that is longer. */
  function ClipFromImage(image: Option<string>, duration: real, audio: Option<string>, m: Media): Result<Clip> {
    if image.None? || !m.imageLoads(image.value) then Err("ImageClip failed")
    else if audio.Some? && audio.value != "" then
      match m.audioDuration(audio.value)
      case None => Err("AudioFileClip failed")
      case Some(a) => Ok(Clip(image.value, if a > duration then a else duration, audio, 0.0, 0.0))
    else Ok(Clip(image.value, duration, None, 0.0, 0.0))
  }

  /**
   * A clip lasts as long as asked, or as long as its audio when that is longer; the audio is
   * attached exactly when a non-empty audio path is given; no fade yet.
   */
  lemma ClipDurationRule(image: Option<string>, duration: real, audio: Option<string>, m: Media)
    ensures ClipFromImage(image, duration, audio, m).Ok? <==>
      image.Some? && m.imageLoads(image.value)
      && (audio.Some? && audio.value != "" ==> m.audioDuration(audio.value).Some?)
    ensures ClipFromImage(image, duration, audio, m).Ok? ==>
      var c := ClipFromImage(image, duration, audio, m).value;
      c.image == image.value && c.duration >= duration && c.fadeIn == 0.0 && c.fadeOut == 0.0
      && (c.audio.Some? <==> audio.Some? && audio.value != "")
      && (c.audio.Some? ==>
            c.audio == audio
            && c.duration == (if m.audioDuration(audio.value).value > duration
                              then m.audioDuration(audio.value).value else duration))
      && (c.audio.None? ==> c.duration == duration)
  {
  }

  /** `create_clip_from_image`, step by step as the source rebuilds the clip. */
  method CreateClipFromImage(image: Option<string>, duration: real, audio: Option<string>, m: Media)
    returns (r: Result<Clip>)
    ensures r == ClipFromImage(image, duration, audio, m)
  {
    if image.None? || !m.imageLoads(image.value) {
      return Err("ImageClip failed");
    }
    var clip := Clip(image.value, duration, None, 0.0, 0.0);
    if audio.Some? && audio.value != "" {
      var a := m.audioDuration(audio.value);
      if a.None? {
        return Err("AudioFileClip failed");
      }
      if a.value > duration {
        clip := Clip(image.value, a.value, None, 0.0, 0.0);
      }
      clip := clip.(audio := audio);
    }
    return Ok(clip);
  }

  /** `create_scene_clip`: the configured clip, five seconds by default, faded in and out for `'fade'`. */
  function SceneClip(config: SceneConfig, m: Media): Result<Clip> {
    match ClipFromImage(config.image, config.duration.GetOr(DefaultSceneDuration), config.audio, m)
    case Err(e) => Err(e)
    case Ok(c) =>
      if config.transition == Some("fade") then Ok(c.(fadeIn := FadeLength, fadeOut := FadeLength))
      else Ok(c)
  }

  /**
   * A scene without a duration lasts five seconds (or its audio's length); fades of half a
   * second are applied exactly when the transition is `'fade'`; the clip is otherwise the image clip.
   */
  lemma SceneClipDefaults(config: SceneConfig, m: Media)
    ensures SceneClip(config, m).Ok? <==>
      ClipFromImage(config.image, config.duration.GetOr(DefaultSceneDuration), config.audio, m).Ok?
    ensures config.duration.None? ==>
      SceneClip(config, m).Ok? ==> SceneClip(config, m).value.duration >= 5.0
    ensures SceneClip(config, m).Ok? ==>
      ((SceneClip(config, m).value.fadeIn == 0.5 && SceneClip(config, m).value.fadeOut == 0.5)
       <==> config.transition == Some("fade"))
    ensures SceneClip(config, m).Ok? ==>
      SceneClip(config, m).value.(fadeIn := 0.0, fadeOut := 0.0)
        == ClipFromImage(config.image, config.duration.GetOr(DefaultSceneDuration), config.audio, m).value
  {
    ClipDurationRule(config.image, config.duration.GetOr(DefaultSceneDuration), config.audio, m);
  }

  /** `create_scene_clip`, step by step. */
  method CreateSceneClip(config: SceneConfig, m: Media) returns (r: Result<Clip>)
    ensures r == SceneClip(config, m)
  {
    var duration := config.duration.GetOr(DefaultSceneDuration);
    var clip := CreateClipFromImage(config.image, duration, config.audio, m);
    if clip.Err? {
      return clip;
    }
    var c := clip.value;
    if config.transition == Some("fade") {
      c := c.(fadeIn := FadeLength);
      c := c.(fadeOut := FadeLength);
    }
    return Ok(c);
  }

  /** The clip attempt of each scene, in order. */
  function SceneResults(scenes: seq<SceneConfig>, m: Media): (rs: seq<Result<Clip>>)
    ensures |rs| == |scenes| && forall k :: 0 <= k < |scenes| ==> rs[k] == SceneClip(scenes[k], m)
  {
    seq(|scenes|, k requires 0 <= k < |scenes| => SceneClip(scenes[k], m))
  }

  /** The clips of `compose_video`: those of the scenes whose clip could be built, in scene order. */
  function Clips(scenes: seq<SceneConfig>, m: Media): seq<Clip> {
    Oks(SceneResults(scenes, m))
  }

  /** A clip is collected exactly when it is the clip of some scene; every scene that succeeds contributes. */
  lemma ClipsAreTheSuccessfulOnes(scenes: seq<SceneConfig>, m: Media)
    ensures forall c :: c in Clips(scenes, m) ==> exists k :: 0 <= k < |scenes| && SceneClip(scenes[k], m) == Ok(c)
    ensures forall k :: 0 <= k < |scenes| && SceneClip(scenes[k], m).Ok? ==>
      SceneClip(scenes[k], m).value in Clips(scenes, m)
    ensures |Clips(scenes, m)| <= |scenes|
    ensures (forall k :: 0 <= k < |scenes| ==> SceneClip(scenes[k], m).Ok?) ==>
      |Clips(scenes, m)| == |scenes|
      && forall k :: 0 <= k < |scenes| ==> Ok(Clips(scenes, m)[k]) == SceneClip(scenes[k], m)
  {
    var rs := SceneResults(scenes, m);
    OksMembers(rs);
    if forall k :: 0 <= k < |scenes| ==> SceneClip(scenes[k], m).Ok? {
      OksAll(rs);
      forall k | 0 <= k < |scenes| ensures Ok(Clips(scenes, m)[k]) == SceneClip(scenes[k], m) {
        assert rs[k] == SceneClip(scenes[k], m);
      }
    }
  }

  /** What `compose_video` returns once the clips are collected: the output path, unless there is no clip or the export fails. */
  function ComposeOutcome(outputDir: string, outputFilename: string, clips: seq<Clip>,
                          write: (seq<Clip>, string) -> bool): Result<string>
  {
    if |clips| == 0 then Err("No clips were successfully created")
    else if write(clips, PathJoin(outputDir, outputFilename)) then Ok(PathJoin(outputDir, outputFilename))
    else Err("write_videofile failed")
  }

  /** An absolute output file name is written and returned as it is: the output directory plays no part. */
  lemma AbsoluteOutputName(outputDir: string, otherDir: string, outputFilename: string, clips: seq<Clip>,
                           write: (seq<Clip>, string) -> bool)
    requires Absolute(outputFilename)
    ensures ComposeOutcome(outputDir, outputFilename, clips, write) == ComposeOutcome(otherDir, outputFilename, clips, write)
    ensures ComposeOutcome(outputDir, outputFilename, clips, write).Ok? ==>
      ComposeOutcome(outputDir, outputFilename, clips, write).value == outputFilename
  {
    PathJoinAbsolute(outputDir, outputFilename);
    PathJoinAbsolute(otherDir, outputFilename);
  }

  /**
   * With no buildable scene the composition fails before anything is written; otherwise it
   * returns `output_dir / output_filename` exactly when the export succeeds.
   */
  lemma ComposeOutcomeSpec(outputDir: string, outputFilename: string, scenes: seq<SceneConfig>, m: Media,
                           write: (seq<Clip>, string) -> bool)
    ensures (forall k :: 0 <= k < |scenes| ==> SceneClip(scenes[k], m).Err?) ==>
      ComposeOutcome(outputDir, outputFilename, Clips(scenes, m), write) == Err("No clips were successfully created")
    ensures ComposeOutcome(outputDir, outputFilename, Clips(scenes, m), write).Ok? <==>
      (exists k :: 0 <= k < |scenes| && SceneClip(scenes[k], m).Ok?)
      && write(Clips(scenes, m), PathJoin(outputDir, outputFilename))
    ensures ComposeOutcome(outputDir, outputFilename, Clips(scenes, m), write).Ok? ==>
      ComposeOutcome(outputDir, outputFilename, Clips(scenes, m), write).value == PathJoin(outputDir, outputFilename)
  {
    ClipsAreTheSuccessfulOnes(scenes, m);
    if |Clips(scenes, m)| > 0 {
      assert Clips(scenes, m)[0] in Clips(scenes, m);
    }
    if exists k :: 0 <= k < |scenes| && SceneClip(scenes[k], m).Ok? {
      var k :| 0 <= k < |scenes| && SceneClip(scenes[k], m).Ok?;
      assert SceneClip(scenes[k], m).value in Clips(scenes, m);
    }
  }

  /** The scenes `create_simple_video` composes: image, audio and duration zipped, each with a fade. */
  function SimpleScenes(images: seq<string>, audios: seq<string>, durations: seq<real>): (r: seq<SceneConfig>)
    requires |images| == |audios| == |durations|
    ensures |r| == |images|
  {
    seq(|images|, k requires 0 <= k < |images| =>
      SceneConfig(None, Some(images[k]), Some(durations[k]), Some(audios[k]), Some("fade")))
  }

  /** The audio reader of `create_simple_video`: `None` when pydub is not installed. */
  type Pydub = Option<string -> Option<real>>

  /** The durations `create_simple_video` finds: read from each file, or five seconds each without pydub. */
  function SimpleDurations(audios: seq<string>, pydub: Pydub): (r: Option<seq<real>>)
    ensures r.Some? ==> |r.value| == |audios|
  {
    if pydub.None? then Some(seq(|audios|, _ => 5.0))
    else if forall k :: 0 <= k < |audios| ==> pydub.value(audios[k]).Some? then
      Some(seq(|audios|, k requires 0 <= k < |audios| => pydub.value(audios[k]).value))
    else None
  }

  /** A store of project files, path to the record `json.load` gives back. */
  class ProjectStore {
    var files: map<string, Project>

    constructor()
      ensures files == map[]
    {
      files := map[];
    }
  }

  /** A project file; an absent key is `None`. */
  datatype Project = Project(
    version: Option<string>,
    resolution: Option<(int, int)>,
    fps: Option<int>,
    scenes: Option<seq<SceneConfig>>)

  /** `VideoCompositor`: the output directory is fixed, the resolution and rate can be reloaded. */
  class VideoCompositor {
    const outputDir: string
    var resolution: (int, int)
    var fps: int

    constructor(outputDir: string, resolution: (int, int), fps: int)
      ensures this.outputDir == outputDir && this.resolution == resolution && this.fps == fps
    {
      this.outputDir := outputDir;
      this.resolution := resolution;
      this.fps := fps;
    }

    /**
     * `compose_video`: a clip for each scene that can be built, failures skipped; then the
     * outcome of `ComposeOutcome` on the clips collected.
     */
    method ComposeVideo(scenes: seq<SceneConfig>, outputFilename: string, m: Media,
                        write: (seq<Clip>, string) -> bool)
      returns (r: Result<string>, clips: seq<Clip>)
      ensures clips == Clips(scenes, m)
      ensures r == ComposeOutcome(outputDir, outputFilename, clips, write)
    {
      clips := [];
      var i := 0;
      while i < |scenes|
        invariant 0 <= i <= |scenes|
        invariant clips == Oks(SceneResults(scenes[..i], m))
      {
        var clip := CreateSceneClip(scenes[i], m);
        assert SceneResults(scenes[..i + 1], m) == SceneResults(scenes[..i], m) + [clip];
        OksSnoc(SceneResults(scenes[..i], m), clip);
        if clip.Ok? {
          clips := clips + [clip.value];
        }
        i := i + 1;
      }
      assert scenes[..i] == scenes;
      if |clips| == 0 {
        return Err("No clips were successfully created"), clips;
      }
      var outputPath := PathJoin(outputDir, outputFilename);
      if !write(clips, outputPath) {
        return Err("write_videofile failed"), clips;
      }
      return Ok(outputPath), clips;
    }

    /**
     * `create_simple_video`: unequal numbers of images and audio files are refused; otherwise
     * one faded scene per (image, audio, duration) triple, in order, is composed.
     */
    method CreateSimpleVideo(imagePaths: seq<string>, audioPaths: seq<string>, outputFilename: string,
                             pydub: Pydub, m: Media, write: (seq<Clip>, string) -> bool)
      returns (r: Result<string>)
      ensures |imagePaths| != |audioPaths| ==> r == Err("Number of images must match number of audio files")
      ensures |imagePaths| == |audioPaths| && SimpleDurations(audioPaths, pydub).None? ==> r.Err?
      ensures |imagePaths| == |audioPaths| && SimpleDurations(audioPaths, pydub).Some? ==>
        r == ComposeOutcome(outputDir, outputFilename,
               Clips(SimpleScenes(imagePaths, audioPaths, SimpleDurations(audioPaths, pydub).value), m), write)
    {
      if |imagePaths| != |audioPaths| {
        return Err("Number of images must match number of audio files");
      }
      var durations: seq<real> := [];
      if pydub.None? {
        durations := seq(|imagePaths|, _ => 5.0);
      } else {
        var i := 0;
        while i < |audioPaths|
          invariant 0 <= i <= |audioPaths| && |durations| == i
          invariant forall k :: 0 <= k < i ==> pydub.value(audioPaths[k]) == Some(durations[k])
        {
          var d := pydub.value(audioPaths[i]);
          if d.None? {
            return Err("AudioSegment.from_file failed");
          }
          durations := durations + [d.value];
          i := i + 1;
        }
        assert forall k :: 0 <= k < |audioPaths| ==> pydub.value(audioPaths[k]).Some?;
        assert durations == seq(|audioPaths|, k requires 0 <= k < |audioPaths| => pydub.value(audioPaths[k]).value);
      }
      assert Some(durations) == SimpleDurations(audioPaths, pydub);
      var scenes: seq<SceneConfig> := [];
      var j := 0;
      while j < |imagePaths|
        invariant 0 <= j <= |imagePaths| && |scenes| == j
        invariant forall k :: 0 <= k < j ==>
          scenes[k] == SceneConfig(None, Some(imagePaths[k]), Some(durations[k]), Some(audioPaths[k]), Some("fade"))
      {
        scenes := scenes + [SceneConfig(None, Some(imagePaths[j]), Some(durations[j]), Some(audioPaths[j]), Some("fade"))];
        j := j + 1;
      }
      assert scenes == SimpleScenes(imagePaths, audioPaths, durations);
      var clips;
      r, clips := ComposeVideo(scenes, outputFilename, m, write);
    }

    /** `export_project_file`: the record stored under `outputPath` holds version 1.0, the settings and the scenes. */
    method ExportProjectFile(scenes: seq<SceneConfig>, outputPath: string, store: ProjectStore)
      modifies store
      ensures store.files == old(store.files)[outputPath := Project(Some("1.0"), Some(resolution), Some(fps), Some(scenes))]
    {
      var project := Project(Some("1.0"), Some(resolution), Some(fps), Some(scenes));
      store.files := store.files[outputPath := project];
    }

    /**
     * `load_project_file`: a missing file fails; otherwise the settings the record holds replace
     * the current ones, and its scenes, or none, are returned.
     */
    method LoadProjectFile(projectPath: string, store: ProjectStore) returns (r: Result<seq<SceneConfig>>)
      modifies this
      ensures projectPath !in store.files ==>
        r.Err? && resolution == old(resolution) && fps == old(fps)
      ensures projectPath in store.files ==>
        r == Ok(store.files[projectPath].scenes.GetOr([]))
        && resolution == store.files[projectPath].resolution.GetOr(old(resolution))
        && fps == store.files[projectPath].fps.GetOr(old(fps))
    {
      if projectPath !in store.files {
        return Err("No such file or directory");
      }
      var project := store.files[projectPath];
      resolution := project.resolution.GetOr(resolution);
      fps := project.fps.GetOr(fps);
      return Ok(project.scenes.GetOr([]));
    }

    /** Loading a project file just exported gives back its scenes and leaves the settings as they were. */
    method ExportThenLoad(scenes: seq<SceneConfig>, path: string, store: ProjectStore)
      returns (loaded: Result<seq<SceneConfig>>)
      modifies this, store
      ensures loaded == Ok(scenes)
      ensures resolution == old(resolution) && fps == old(fps)
      ensures store.files == old(store.files)[path := Project(Some("1.0"), Some(old(resolution)), Some(old(fps)), Some(scenes))]
    {
      ExportProjectFile(scenes, path, store);
      loaded := LoadProjectFile(path, store);
    }
  }
}

# yt video pipeline — a Dafny model

This project models the pipeline that turns a markdown video script into a YouTube video, together with the command line that drives it:

* **ScriptParser** (`script_parser.dfy`). The script parser finds every `### [m:ss-m:ss] Title` section. It takes the body of the section's first code fence. It reads the timestamp, and it collects the `[SCREEN]:`, `(VOICEOVER):` and `{EDITING …}:` cues. The regular expressions are written as scanners that choose the same match Python's `re` module would choose. The `ScriptParser` class keeps the segments of the last parse.
* **TTS** (`tts_generator.dfy`):
  * cleaning voiceover text for speech;
  * choosing a speech provider (system `say`, ElevenLabs, gTTS);
  * the file each provider writes;
  * generating a batch of voiceovers.
* **LLM** (`llm_client.dfy`). The chat client builds the request payload and applies the retry policy (timeouts and 5xx errors retry after 5·attempt seconds). `LLMClient` is a class. `chat_json` can recover JSON from inside a markdown fence.
* **Compositor** (`compositor.dfy`):
  * the clip built for each scene configuration: the duration rule against the audio length, and the half-second fades;
  * composing a video from the clips that could be made;
  * the simple-video path;
  * the project file, written and loaded back.
* **Orchestrator** (`video_generator.dfy`):
  * classifying a segment as a chart, diagram, title or text scene;
  * the request sent to the scene drawer for each kind;
  * the scene and audio stages;
  * the scene configurations handed to the compositor;
  * the manifest written after a run;
  * the `VideoGenerator` class and its construction.
* **Cli** (`generate_video.py` → `generate_video.dfy`):
  * argument defaults and choices;
  * Python's `int()` on the resolution and fps texts;
  * the checks made before the run (the script exists, the resolution parses);
  * the exit status of each way the command can end.

Shared helpers:
* `wrappers.dfy`: `Option` and `Result`.
* `text.dfy`: the string operations Python provides (`strip`, `split`, `join`, `lower`, `in`, `find`, `replace`, decimal digits), restricted to ASCII.
* `paths.dfy`: the `pathlib` operations the code uses (`/`, `.name`, `.stem`, `.with_suffix`).

Where the program talks to the outside world, the model takes the answer as a parameter:
* the text of the script file, and whether the file exists;
* whether each scene could be drawn (`Renderer`);
* whether the speech provider wrote its file;
* whether an image loads, and how long an audio file is;
* whether the video file was written;
* which packages are installed, and the environment variables;
* what the LLM server answered at each attempt.

Files the program writes (the manifest, the project file, the voiceover script) are kept in `map`-valued stores, or returned as `FileWrite` records.

Where the documented design and the code differ, the model follows the code:
* a timestamp whose end is before its start is accepted;
* seconds above 59 are accepted;
* a scene or voiceover failure aborts the whole run, with no per-item recovery;
* no manifest is written when a run fails.

## Model

| member | source | states |
|---|---|---|
| ScriptParser.VoiceoverTextAppend | src/parsers/script_parser.py:31-34 | appending lines to a segment's voiceover extends `voiceover_text` by the space-joined new lines |
| ScriptParser.ScanStampSound | src/parsers/script_parser.py:41 | a scan that succeeds at a position found `[digits:digits-digits:digits]` there, with its four fields at the reported ends |
| ScriptParser.ScanStampComplete | src/parsers/script_parser.py:41 | whenever the text has that shape at a position, the scan finds it with exactly those field ends |
| ScriptParser.StampAtSound | src/parsers/script_parser.py:41 | the matched stamp occupies the text from its start to its end, and that text is the stamp re-rendered from its fields |
| ScriptParser.FindStampFirst | src/parsers/script_parser.py:63 | `re.search` returns the leftmost timestamp: no match starts between the search start and the position found (or the end when none) |
| ScriptParser.ParseTimestampSpec | src/parsers/script_parser.py:56-71 | with no timestamp anywhere, parsing fails with `Invalid timestamp format: <text>`; otherwise it reads the groups of the leftmost timestamp, and succeeds exactly when no group has more than 4300 digits (`int()`'s limit), with that timestamp's minutes·60+seconds |
| ScriptParser.ReadFieldsOk | src/parsers/script_parser.py:66-71 | `map(int, …)` over the four groups succeeds exactly when each has at most 4300 digits, and then gives minutes·60+seconds for both ends |
| ScriptParser.ParseStampText | src/parsers/script_parser.py:56-71 | the text of any well-formed stamp matches at its start with those groups; it parses exactly when every group is within the digit limit, then to that stamp's minutes·60+seconds pair (round trip) |
| ScriptParser.ParseAtStart | src/parsers/script_parser.py:63-71 | a text that starts with a timestamp is read from the groups of that first stamp |
| ScriptParser.ExampleTimes | src/parsers/script_parser.py:58 | the fields 1,05,2,30 decode to 65 and 150 seconds |
| ScriptParser.ParseExample | src/parsers/script_parser.py:58 | `[1:05-2:30]` parses to (65, 150) |
| ScriptParser.UncheckedTimes | src/parsers/script_parser.py:67-69 | fields 0,75,0,10 decode to 75 and 10: seconds over 59 and an end before the start are not rejected |
| ScriptParser.NoRangeCheck | src/parsers/script_parser.py:67-71 | `[0:75-0:10]` parses to (75, 10) |
| ScriptParser.SectionAtOrdered | src/parsers/script_parser.py:78 | a section match starts at the position tried and its stamp, title and end positions are in order |
| ScriptParser.FindSectionFirst | src/parsers/script_parser.py:80 | `finditer` takes the leftmost section: no section starts between the search position and the one found |
| ScriptParser.FenceAt | src/parsers/script_parser.py:86 | a fence found at a position opens with three backticks and a newline there and closes with a newline and three backticks further on |
| ScriptParser.FindFenceFirst | src/parsers/script_parser.py:86 | the fence used is the leftmost one in the section |
| ScriptParser.BodyFirstFence | src/parsers/script_parser.py:86-90 | without a fence the content is the whole section text; with one it is the text between the leftmost fence's opening and its first closing |
| ScriptParser.ExtractSections | src/parsers/script_parser.py:73-98 | the loop over matches returns the sections of the text in order, as the recursive definition gives them |
| ScriptParser.SectionTimestamp | src/parsers/script_parser.py:81-93 | each section's bracketed timestamp text holds a well-formed stamp at its start, and parsing it reads that stamp's groups |
| ScriptParser.SectionsParse | src/parsers/script_parser.py:141-162 | every extracted section's timestamp text is read from its own first stamp: `Invalid timestamp format` never arises, and `parse`'s `except` branch is reached only through the digit limit |
| ScriptParser.SectionTitleSpan | src/parsers/script_parser.py:78-82 | only whitespace lies between the stamp and the title; the section ends at the next `###` or the end of the text, and no `###` lies inside the title span |
| ScriptParser.ContinueStops | src/parsers/script_parser.py:112-119 | a cue continues over newline-separated lines that are non-empty and do not start another cue, and stops at the first line that fails that |
| ScriptParser.CueAt | src/parsers/script_parser.py:112-126 | a cue captured at a position has a non-empty capture after the marker |
| ScriptParser.FindCueFirst | src/parsers/script_parser.py:112-130 | `finditer` for a cue kind finds the leftmost cue from the search position |
| ScriptParser.CollectCues | src/parsers/script_parser.py:111-130 | the loop collects the non-empty stripped captures of one cue kind, in order |
| ScriptParser.ParseSectionContent | src/parsers/script_parser.py:100-132 | the three lists are the screen, voiceover and editing cues of the content |
| ScriptParser.EditingCaptureOneLine | src/parsers/script_parser.py:126 | an editing-note capture never spans a newline |
| ScriptParser.CuesStripped | src/parsers/script_parser.py:113-130 | every collected cue is non-empty and already stripped |
| ScriptParser.EditingNotesOneLine | src/parsers/script_parser.py:126-130 | every editing note is a single line |
| ScriptParser.SegmentOf | src/parsers/script_parser.py:146-156 | a section yields a segment exactly when its timestamp parses, with the section's title and the parsed start and end times |
| ScriptParser.SegmentFor | src/parsers/script_parser.py:146-158 | the per-section step returns the segment, or the error, that the section defines |
| ScriptParser.SegmentsFor | src/parsers/script_parser.py:144-162 | the loop keeps the successful segments in section order and skips the failed ones |
| ScriptParser.ParseScriptKeepsAll | src/parsers/script_parser.py:141-164 | a section becomes a segment exactly when no group of its timestamp has more than 4300 digits; when that holds for all of them, there is one segment per section, the k-th from the k-th section |
| ScriptParser.OversizedSectionSkipped | src/parsers/script_parser.py:141-162 | a section whose first minute group has 4301 digits fails with `int()`'s message for 4301 digits, whatever its title and content |
| ScriptParser.MaxEndTime | src/parsers/script_parser.py:166-170 | the total duration is 0 without segments; otherwise it is an end time of some segment and no segment ends later |
| ScriptParser.SummaryPrintableEach | src/parsers/script_parser.py:197-209 | the summary prints exactly when the start, end and duration of every segment convert to a float |
| ScriptParser.SummaryPrintableIff | src/parsers/script_parser.py:197-209 | the summary prints exactly when every start and end time is below 2^1024 − 2^970, the least integer `float()` refuses |
| ScriptParser.SummaryTotalPrintable | src/parsers/script_parser.py:199 | when the segments print, so does the total duration |
| ScriptParser.SummaryOverflows | src/parsers/script_parser.py:203-204 | one segment ending at or past that bound makes the summary raise |
| ScriptParser.VoiceoverPartsLayout | src/parsers/script_parser.py:182-187 | segment k contributes exactly parts 3k, 3k+1, 3k+2: its `## title` heading, its voiceover text, an empty line |
| ScriptParser.ScriptParser.constructor | src/parsers/script_parser.py:46-49 | a new parser holds the script path and text and no segments |
| ScriptParser.ScriptParser.Parse | src/parsers/script_parser.py:134-164 | `parse` replaces the segments by those of the text, returns them, and leaves the path and text alone |
| ScriptParser.ScriptParser.PrintSummary | src/parsers/script_parser.py:197-209 | `print_summary` returns exactly when the summary prints; otherwise it raises `int too large to convert to float` |
| ScriptParser.ScriptParser.ExportVoiceoverScript | src/parsers/script_parser.py:172-195 | the text is the parts joined by newlines; a file is written, with that text, exactly when a non-empty output path is given |
| TTS.FencedKeepsChars | src/audio/tts_generator.py:244 | removing fenced code blocks adds no character that was not in the text |
| TTS.FenceDeletedAt | src/audio/tts_generator.py:244 | with backticks only at two fences, the span from the opening fence through the closing fence is removed and the rest kept |
| TTS.FenceDeleted | src/audio/tts_generator.py:244 | `a` + fence + `m` + fence + `b`, with no other backticks, becomes `a + b` |
| TTS.TicksKeepChars | src/audio/tts_generator.py:245 | removing inline code adds no character that was not in the text |
| TTS.TickSpanDeletedAt | src/audio/tts_generator.py:245 | a backtick pair with no newline between is removed with its contents and the rest kept |
| TTS.TickSpanDeleted | src/audio/tts_generator.py:245 | `a` + tick + `m` + tick + `b` with no newline in `m` becomes `a + b` |
| TTS.TickSpanKeptAt | src/audio/tts_generator.py:245 | a backtick pair with a newline between is not matched (`.` excludes newlines) and the text is unchanged |
| TTS.TickSpanAcrossLinesKept | src/audio/tts_generator.py:245 | `a` + tick + `m` + tick + `b` with a newline in `m` is left as it is |
| TTS.JoinWordsSpaced | src/audio/tts_generator.py:248 | joining non-empty whitespace-free words by single spaces gives text with no leading, trailing or doubled space and no other whitespace |
| TTS.CollapseKeepsChars | src/audio/tts_generator.py:248 | collapsing whitespace adds no character other than the space |
| TTS.CleanTextShape | src/audio/tts_generator.py:232-250 | the cleaned text has no `*`, no `_`, no newline, and single spaces only between words |
| TTS.MakeProviderSpec | src/audio/tts_generator.py:156-164 | a provider that is built carries the requested name; any other name fails with `Unknown TTS provider: <name>` |
| TTS.MakeProviderDefaults | src/audio/tts_generator.py:30-39 | with no arguments, `system` gives voice Alex at rate 180, and `gtts` succeeds exactly when gTTS is installed, with language en and normal speed |
| TTS.MakeProviderKey | src/audio/tts_generator.py:67-86 | a built ElevenLabs provider always has a non-empty key, the given one when that is non-empty; with no arguments it is built exactly when `ELEVEN_API_KEY` is non-empty and the package is installed |
| TTS.ProviderGenerate | src/audio/tts_generator.py:41-133 | a provider's output path is the requested path with the provider's suffix (`.aiff` or `.mp3`), and the provider spoke the text to it |
| TTS.NewTTSGenerator | src/audio/tts_generator.py:139-166 | the generator is built exactly when its provider is, with that provider, name and output directory; otherwise it fails with the provider's message |
| TTS.VoiceoverDefaultPath | src/audio/tts_generator.py:185-193 | without a filename the audio goes to `<dir>/voiceover_<id>` with the provider's suffix, and the call succeeds exactly when the provider writes it |
| TTS.DefaultName | src/audio/tts_generator.py:186-188 | putting a suffix on `<dir>/<stem>.mp3` gives `<dir>/<stem><suffix>` |
| TTS.GenerateBatch | src/audio/tts_generator.py:195-230 | the batch succeeds exactly when every item does and returns their paths in order; otherwise it stops at the first failing item with that item's message |
| Paths.WithSuffixSpec | src/audio/tts_generator.py:43 | `with_suffix` fails exactly on an empty name; otherwise it keeps the directory and stem and replaces the suffix |
| Paths.PathJoinAbsolute | src/video/compositor.py:213 | joining an absolute name gives that name, whatever the directory |
| Paths.PathJoinParts | src/audio/tts_generator.py:188 | joining a directory and a slash-free name gives a path whose name is that name and whose directory is `<dir>/` |
| Paths.SuffixOfPlain | src/audio/tts_generator.py:43 | a stem with a plain suffix appended has that suffix and that stem |
| LLM.EndpointOrDefault | src/utils/llm_client.py:17 | the endpoint has its trailing slashes removed, or is the default endpoint when nothing else is left; it never ends in a slash |
| LLM.EndpointKeepsPrefix | src/utils/llm_client.py:17 | the stored endpoint is the given one less only trailing slashes |
| LLM.LLMClient.constructor | src/utils/llm_client.py:16-20 | the client stores the normalised endpoint, the model (or `claude-4.5`), the timeout and the retry count |
| LLM.AttemptRetries | src/utils/llm_client.py:79-96 | an attempt retries exactly on a timeout or a 5xx error before the last attempt, waiting 5·attempt seconds; a success returns its content and every other end is an error, `LLM HTTP error: <detail>` for an HTTP error and `LLM request failed: <detail>` for any other failure |
| LLM.RunFromShape | src/utils/llm_client.py:67-98 | a run makes between 1 and max_retries attempts, waits before each retry, and ends with the outcome of its last attempt |
| LLM.RetryPolicy | src/utils/llm_client.py:67-98 | with no attempts allowed the call fails with `LLM request failed after all retries`; otherwise 1 to max_retries attempts are made, every one but the last was retried after 5, 10, 15, … seconds, and the last one's decision is the result |
| LLM.FirstSuccess | src/utils/llm_client.py:67-77 | if every attempt before the k-th asked for a retry and the k-th succeeded, the answer is the k-th content after k attempts |
| LLM.FatalErrorStops | src/utils/llm_client.py:87-96 | an error that is neither a timeout nor a 5xx ends the call at that attempt with an error |
| LLM.LLMClient.BuildRequest | src/utils/llm_client.py:49-73 | the request goes to `<endpoint>/chat/completions` with the client's timeout; the payload has the model, a system message first and only for a non-empty system prompt, then the user message, the temperature, and `max_tokens`/`response_format` only when given and non-empty |
| LLM.LLMClient.Chat | src/utils/llm_client.py:28-98 | the request is the one built from the arguments, and the result, waits and attempt count are those of the retry run |
| LLM.LLMClient.ChatJson | src/utils/llm_client.py:100-136 | the request is `chat`'s for the same prompt, system prompt, temperature and max_tokens, with `response_format` a JSON object; a failed chat fails with its message; an answer is decoded directly, else from its first `json` fence (whose decoder error passes through), else fails with `Failed to parse JSON response: ` and the decoder's message |
| LLM.FencedJsonAt | src/utils/llm_client.py:131-135 | the JSON taken from a fenced answer is the stripped text between the first `json` fence and the next closing fence |
| LLM.UnclosedFencedJsonAt | src/utils/llm_client.py:131-135 | with no closing fence, `find` returns -1 and the slice drops the answer's last character |
| LLM.FencedJsonOf | src/utils/llm_client.py:131-135 | `a` + json fence + `m` + fence + `b` yields the stripped `m` |
| LLM.UnclosedFencedJsonOf | src/utils/llm_client.py:131-135 | `a` + json fence + `m` with no closing fence yields `m` less its last character, stripped |
| Compositor.ClipDurationRule | src/video/compositor.py:72-110 | a clip is made exactly when the image loads and any audio loads; it lasts the longer of the requested duration and the audio's length, and carries the audio |
| Compositor.CreateClipFromImage | src/video/compositor.py:72-110 | the method returns the clip the rule defines |
| Compositor.SceneClipDefaults | src/video/compositor.py:112-145 | a scene clip is made exactly when its image clip is, with 5 seconds when no duration is given; it has half-second fades exactly when the transition is `fade`, and is otherwise that image clip |
| Compositor.CreateSceneClip | src/video/compositor.py:112-145 | the method returns the scene clip the configuration defines |
| Compositor.SceneResults | src/video/compositor.py:171-179 | one clip outcome per scene, the k-th from the k-th configuration |
| Compositor.ClipsAreTheSuccessfulOnes | src/video/compositor.py:169-182 | the clips kept are exactly those whose scenes succeeded, at most one per scene, and all of them when every scene succeeds |
| Compositor.AbsoluteOutputName | src/video/compositor.py:213 | an absolute output file name (`-o /abs/v.mp4`) is the file written and returned, whichever the output directory |
| Compositor.ComposeOutcomeSpec | src/video/compositor.py:181-248 | composing fails with `No clips were successfully created` when every scene fails; it succeeds exactly when some clip exists and the file is written, returning `<output_dir>/<filename>` |
| Compositor.VideoCompositor.constructor | src/video/compositor.py:19-36 | the compositor stores its output directory, resolution and fps |
| Compositor.VideoCompositor.ComposeVideo | src/video/compositor.py:147-248 | the loop keeps the clips of the successful scenes and the outcome is the composition of those |
| Compositor.VideoCompositor.CreateSimpleVideo | src/video/compositor.py:250-291 | mismatched list lengths fail with `Number of images must match number of audio files`; an unreadable audio file fails; otherwise the faded scenes pairing each image with its audio and duration (5 s each without pydub) are composed |
| Compositor.VideoCompositor.ExportProjectFile | src/video/compositor.py:293-318 | the project file at the path now holds version 1.0, the resolution, the fps and the scenes |
| Compositor.VideoCompositor.LoadProjectFile | src/video/compositor.py:320-336 | a missing file fails; otherwise resolution and fps are taken from the file when present and the scenes (or `[]`) are returned |
| Compositor.VideoCompositor.ExportThenLoad | src/video/compositor.py:293-336 | loading a project just exported returns the same scenes and leaves resolution and fps unchanged (round trip) |
| Orchestrator.KindNameInjective | src/video_generator.py:179-186 | the four scene-type names are distinct |
| Orchestrator.MentionsAnySpec | src/video_generator.py:197-199 | a keyword test holds exactly when one of the words occurs in the text |
| Orchestrator.CueInScreenText | src/video_generator.py:195 | a word in any lower-cased screen cue occurs in the joined screen text |
| Orchestrator.CueClassifies | src/video_generator.py:193-204 | a chart word in any screen cue makes the scene a chart; a diagram word makes it a chart or a diagram; `title card` makes it anything but text |
| Orchestrator.NoCueClassifies | src/video_generator.py:201-204 | a segment without screen cues is a title scene when it starts at 0 and a text scene otherwise |
| Orchestrator.CueDiagramType | src/video_generator.py:229-235 | `vs`, `comparison` or `split` in a cue gives a comparison diagram; `flow` or `→` gives comparison or flow |
| Orchestrator.DisplayTitleSpec | src/video_generator.py:208 | the displayed title is the stripped text after the last `]`, and holds no `]` |
| Orchestrator.ShortCuesAppend | src/video_generator.py:211-214 | annotation selection distributes over concatenation of the cue list |
| Orchestrator.ShortCuesSpec | src/video_generator.py:211-214 | the annotations are exactly the cues shorter than 100 characters |
| Orchestrator.Take | src/video_generator.py:220 | `[:n]` is the prefix of length min(n, length) |
| Orchestrator.StrippedPartsClean | src/video_generator.py:241-242 | the stripped non-empty parts of arrow- and bar-free pieces are element-shaped |
| Orchestrator.CueElementsClean | src/video_generator.py:241-242 | every element taken from a cue is non-empty, stripped and holds no `|` or `→` |
| Orchestrator.ElementsClean | src/video_generator.py:238-242 | every diagram element of a segment is non-empty, stripped and holds no `|` or `→` |
| Orchestrator.Truncate | src/video_generator.py:276-277 | the overlay text is at most 80 characters; a long one becomes its first 77 characters and `...` |
| Orchestrator.Subtitle | src/video_generator.py:258-260 | a subtitle exists exactly when the first voiceover line exists and is shorter than 60 characters, and is that line |
| Orchestrator.SceneNameInjective | src/video_generator.py:216 | two scene file names are equal only for the same index and scene type |
| Orchestrator.SceneNamePieces | src/video_generator.py:216 | equal scene file names have the same padded index and the same type name |
| Orchestrator.SceneNameIndexOf | src/video_generator.py:216 | the index can be read back from a scene file name |
| Orchestrator.SceneFileIndex | src/video_generator.py:216 | the index can be read back from a scene file path in the scenes directory |
| Orchestrator.SegmentId | src/video_generator.py:292 | a segment id holds no `/` |
| Orchestrator.SegmentIdInjective | src/video_generator.py:292 | equal segment ids come from equal indexes |
| Orchestrator.SegmentIdsDiffer | src/video_generator.py:292 | different indexes give different segment ids |
| Orchestrator.AudioItemsOf | src/video_generator.py:290-294 | one audio item per segment |
| Orchestrator.AudioItemsText | src/video_generator.py:292-293 | the k-th item's id is `segment_` and k+1 padded to two digits, holding no `/`, and its text is the k-th segment's voiceover text |
| Orchestrator.AudioItemsDistinct | src/video_generator.py:290-294 | no two audio items share an id |
| Orchestrator.AudioIdsDiffer | src/video_generator.py:290-294 | the items of two different segments have different ids |
| Orchestrator.SceneRequestPath | src/video_generator.py:216-279 | each request's output path is the scene path, whose file name is the scene name of its index and type |
| Orchestrator.SceneRequestKind | src/video_generator.py:175-186 | the request drawn is of the kind the segment is classified as |
| Orchestrator.ChartRequestShape | src/video_generator.py:206-222 | a chart request has the display title and exactly the first min(3, n) of the n cues under 100 characters, in order |
| Orchestrator.DiagramRequestShape | src/video_generator.py:224-251 | a diagram request has the display title, the segment's diagram type and exactly the first min(6, n) of the n elements, each of the element shape |
| Orchestrator.TextRequestShape | src/video_generator.py:270-285 | a text request shows at most 80 characters, centred |
| Orchestrator.SceneNameFree | src/video_generator.py:216 | a scene file name holds no `/` |
| Orchestrator.ScenePathsDistinct | src/video_generator.py:216-279 | the scenes of different indexes go to different files |
| Orchestrator.SceneFilesDiffer | src/video_generator.py:216-279 | scene files of different indexes differ whatever their types |
| Orchestrator.ChartAnnotations | src/video_generator.py:211-214 | the loop collects the short cues |
| Orchestrator.DiagramElements | src/video_generator.py:238-242 | the loop collects the elements of every cue in order |
| Orchestrator.BuildSceneRequest | src/video_generator.py:175-186 | the request built is the one the segment's type defines |
| Orchestrator.DrawnUpToSpec | src/video_generator.py:171-191 | the first n scenes are drawn exactly when each of them is |
| Orchestrator.DrawnAt | src/video_generator.py:171-191 | if the first n scenes are drawn, the k-th one is |
| Orchestrator.DrawnFromEach | src/video_generator.py:171-191 | if each of the first n scenes is drawn, the prefix is drawn |
| Orchestrator.ScenePathsUpToSpec | src/video_generator.py:171-191 | the k-th path of the first n is the k-th segment's scene path |
| Orchestrator.ScenePathAt | src/video_generator.py:171-191 | the same for one index k |
| Orchestrator.DrawnStep | src/video_generator.py:171-188 | one more drawn scene extends the drawn prefix and appends its path |
| Orchestrator.UndrawnNotAll | src/video_generator.py:171-191 | a segment whose scene fails means the run does not draw all scenes |
| Orchestrator.DrawScene | src/video_generator.py:175-188 | one scene is drawn from its request and reported at its scene path |
| Orchestrator.GenerateScenes | src/video_generator.py:167-191 | the stage succeeds exactly when every scene is drawn, returning the scene paths in order; otherwise the first undrawn scene stops it |
| Orchestrator.ScenePathsOfDistinct | src/video_generator.py:167-191 | the scene paths of a run are pairwise distinct |
| Orchestrator.ScenePathsDiffer | src/video_generator.py:167-191 | the paths of two different segments differ |
| Orchestrator.ScenePathIndexAt | src/video_generator.py:167-191 | the k-th scene path encodes index k+1 |
| Orchestrator.PrepareAudioItems | src/video_generator.py:287-294 | the loop builds the `(segment_NN, voiceover text)` items |
| Orchestrator.SpokenPaths | src/video_generator.py:297 | one audio path per item |
| Orchestrator.SpokenPathsSpec | src/video_generator.py:287-299 | each segment's audio path is the one its voiceover was spoken to |
| Orchestrator.SpokenPathOf | src/video_generator.py:287-299 | the k-th audio path is `<audio dir>/voiceover_segment_NN` with the provider's suffix, and holds the cleaned voiceover |
| Orchestrator.SpokenPathsDistinct | src/video_generator.py:287-299 | no two segments' audio files coincide |
| Orchestrator.VoiceoverPathsDistinct | src/audio/tts_generator.py:186 | voiceover paths for indexes 1..n are pairwise distinct |
| Orchestrator.VoiceoverPathsDiffer | src/audio/tts_generator.py:186 | voiceover paths of different ids differ |
| Orchestrator.ConfigsOf | src/video_generator.py:312-319 | `zip` yields as many configurations as the shortest of the three lists |
| Orchestrator.ConfigsSpec | src/video_generator.py:311-319 | the k-th configuration has the k-th title, scene, audio and duration and a fade, so its clip (when made) lasts at least the segment's duration and fades |
| Orchestrator.BuildConfigs | src/video_generator.py:310-319 | the loop builds those configurations |
| Orchestrator.VideoName | src/video_generator.py:139-141 | a non-empty output name is used as given; otherwise the name is the script's stem and `_video.mp4` |
| Orchestrator.DefaultVideoName | src/video_generator.py:139-141 | `<dir>/<stem>.md` gives `<stem>_video.mp4` |
| Orchestrator.VideoGenerator.constructor | src/video_generator.py:32-83 | the generator keeps its output directory, TTS generator and settings; the compositor gets the resolution and fps; an LLM client exists exactly when LLM scenes are on, with the normalised endpoint |
| Orchestrator.VideoGenerator.ComposeStage | src/video_generator.py:301-331 | the project file `<output>/project.json` now holds the configurations, and the result is their composition in the video directory |
| Orchestrator.VideoGenerator.UnprintableOutcome | src/video_generator.py:116 | a script whose summary raises ends the run with no manifest and no composition |
| Orchestrator.VideoGenerator.UndrawnOutcome | src/video_generator.py:118-124 | no segments, or an undrawn scene, means no manifest and no composition |
| Orchestrator.VideoGenerator.UnspokenOutcome | src/video_generator.py:126-131 | a failed voiceover, when audio is not skipped, means no manifest |
| Orchestrator.VideoGenerator.UncomposedOutcome | src/video_generator.py:133-157 | when audio or video is skipped the manifest has no video and nothing is composed |
| Orchestrator.VideoGenerator.ComposedOutcome | src/video_generator.py:133-157 | when composition runs, the manifest carries the composed video |
| Orchestrator.VideoGenerator.OutcomeFails | src/video_generator.py:111-165 | the run fails exactly when the summary raises, there are no segments, a scene fails, a voiceover fails, or the composition fails |
| Orchestrator.VideoGenerator.ManifestShape | src/video_generator.py:150-157 | a manifest records the script path, the (non-zero) segment count, the output directory and the scene paths; no audio when audio is skipped, one file per segment otherwise; a video exactly when neither audio nor video is skipped, at the video name joined to the video directory (the name itself when absolute) |
| Orchestrator.VideoGenerator.ManifestScenes | src/video_generator.py:124-153 | a manifest lists, for each segment, the scene path of that segment's drawn scene, and no two are the same file |
| Orchestrator.VideoGenerator.ManifestAudio | src/video_generator.py:127-154 | with audio on, a manifest lists for segment k `<audio dir>/voiceover_segment_NN` with the provider's suffix, into which the cleaned voiceover was spoken, and no two are the same file |
| Orchestrator.VideoGenerator.SkippedAudioIgnoresSpeech | src/video_generator.py:127-135 | with audio skipped the result does not depend on speech, the media library or the writer |
| Orchestrator.VideoGenerator.SkippedVideoIgnoresComposition | src/video_generator.py:134-135 | with video skipped the result does not depend on composition |
| Orchestrator.VideoGenerator.AudioStage | src/video_generator.py:287-299 | the stage succeeds exactly when every voiceover is spoken, with their paths |
| Orchestrator.VideoGenerator.RunStages | src/video_generator.py:118-165 | once the summary has printed: no segments fails with `No segments found in script`; the run succeeds exactly when the outcome exists, writing that manifest and nothing on failure, and writes the project file only when composing |
| Orchestrator.VideoGenerator.FinishStages | src/video_generator.py:126-165 | the same, once the scenes are drawn |
| Orchestrator.VideoGenerator.GenerateFromScript | src/video_generator.py:85-165 | a summary that raises fails the run with `int too large to convert to float`; the run over the parsed script's segments has the outcome defined above and updates the manifest and project stores accordingly |
| Orchestrator.NewVideoGenerator | src/video_generator.py:32-83 | construction fails exactly when the TTS generator for `<output>/audio` cannot be built (with its message) or MoviePy does not import (with `MoviePy not installed or incompatible: pip install moviepy. Error: <detail>`); otherwise the generator has the given settings |
| Cli.PyIntOfDigits | generate_video.py:109 | `int()` reads back any decimal rendering of at most 4300 digits, and its negation with `-`; longer ones are refused |
| Cli.NegativeLiteral | generate_video.py:109 | `-` followed by at most 4300 digits is the negated value; more digits are refused |
| Cli.PyIntTooLong | generate_video.py:109 | a run of more than 4300 digits is refused, with or without `-`, whatever its value |
| Cli.PyIntIgnoresSpace | generate_video.py:109 | surrounding whitespace does not change `int()` |
| Cli.PyIntGrouped | generate_video.py:109 | a single `_` between digit groups is accepted and ignored, and does not count towards the 4300-digit limit |
| Cli.PyIntRefuses | generate_video.py:109 | the empty text, a bare sign, a leading, doubled or trailing `_` are refused |
| Cli.ParseResolutionSpec | generate_video.py:108-114 | `A x B` with no other `x` parses exactly when both sides are integers, to those integers |
| Cli.ResolutionNeedsOneX | generate_video.py:108-114 | an accepted resolution text has exactly one `x` |
| Cli.NoXRefused | generate_video.py:108-114 | a text without `x` is refused |
| Cli.UpperXRefused | generate_video.py:108-114 | `1920X1080` is refused: the separator is the lower-case `x` |
| Cli.ResolutionRoundTrip | generate_video.py:108-114 | the text `<w>x<h>` of two numbers parses back to (w, h) when neither has more than 4300 digits, and is refused otherwise |
| Cli.DefaultResolution | generate_video.py:69-73 | the default `1920x1080` parses to (1920, 1080) |
| Cli.UseLlm | generate_video.py:128 | LLM scenes are on exactly when a non-empty LLM endpoint is given |
| Cli.PrepareSpec | generate_video.py:101-114 | a missing script fails with `Script not found: <path>`; preparation succeeds exactly when the script exists and the resolution parses, with the resolution, fps and LLM setting |
| Cli.DefaultsPrepare | generate_video.py:56-80 | the default arguments are accepted and prepare to 1920×1080 at 30 fps without LLM |
| Cli.ExitStatus | generate_video.py:99-168 | the status is 0 exactly when the arguments were accepted and a manifest produced, 2 exactly when argument parsing refused them, 1 otherwise |
| Cli.Run | generate_video.py:99-168 | the command's status follows that rule; no generator is built when the arguments or preparation fail; otherwise one is built exactly when the TTS generator can be and MoviePy imports, as configured, and its result is the run's outcome; the manifest store gains `manifest.json` on success and is otherwise unchanged; the project store gains `project.json` exactly when the run composes and is otherwise unchanged; without a generator neither store changes |
| Cli.Launch | generate_video.py:135-168 | the run's status is 0 with a manifest and 1 without; only a successful run writes `manifest.json`, and `project.json` is written, with the run's project record, exactly when the run composes |

## Left out

- Console output (every `print`, the progress lines, the text of `print_summary`) and the `__main__` blocks: what they print has no effect on the results. `print_summary` is modelled only for the `OverflowError` its float formatting raises.
- Reading the script file: its text is a parameter, and whether the path exists is a flag.
- Creating directories (`mkdir`): it has no observable effect in the model.
- Drawing scenes: `SceneGenerator` is not part of this model. Each scene request is passed to a `Renderer` that says whether the image was made.
- Backend error messages from drawing, speech and composition: they are replaced by fixed messages such as `Scene generation failed`. The text of MoviePy's import error is a parameter (`Environment.moviepyError`); the rest of the MoviePy installation is not modelled.
- MoviePy internals, encoding parameters and background music: `compose_video` is modelled up to which clips are made and whether the file is written. Background music only affects the audio track, and its failure is caught.
- ffmpeg threading, `os.cpu_count` and clip closing: these are resource management, not results.
- `subprocess`, the `say` command, the ElevenLabs and gTTS packages: speaking is a parameter that says whether the file was written. Package availability and `ELEVEN_API_KEY` are fields of `Environment`.
- `get_audio_duration` and `list_available_voices`: they are only called from the `__main__` test block and read the file system or a subprocess.
- The LLM client is built by the generator, but no modelled operation calls it. The HTTP session, the timeout value and `time.sleep` are left out; the waits are returned as a list instead.
- The JSON parser is a parameter to `ChatJson` that gives the value or the decoder's error message: the model does not implement JSON or the wording of its messages.
- `KeyboardInterrupt` and `traceback`: an interrupted run ends with status 1, like any other failed run.
- `argparse` itself: its messages, option spelling and argument order are not modelled. The model keeps only the `--tts` choices and the `int` type of `--fps`, and gives status 2 when they fail.
- Python's `int()` also accepts non-ASCII digits; the model accepts decimal ASCII digits only.
- `int()`'s digit limit is CPython's default of 4300 (`sys.set_int_max_str_digits` is never called), and its message is CPython 3.12's wording. The same limit on `str()` of a segment number would need more than 10^4300 segments and is not modelled.
- Float conversion is modelled only as the bound past which `float()` of an integer raises; the printed digits are not modelled.
- `str.lower`, `str.split()` and `str.strip()` are modelled on ASCII: whitespace is the ASCII whitespace Python recognises, and case folding applies to A–Z only.
- `pathlib` normalisation (`str(Path(...))` collapsing `//`, `.` and trailing slashes, and an empty directory rendering as `.`) is left out: a path is the directory, `/`, and the name, except that an absolute name replaces the directory, as `/` does.
- Paths.WithSuffixSpec: covers only suffixes of the form `.` plus characters other than `.` and `/`, the only ones the program uses.
- A scene configuration whose key is present with the value `None` cannot be told apart from a missing key: both are `None` in the model.
- The resolution is not range-checked: negative or zero sizes are accepted, as in the code.
- `ScriptSegment` times are whole seconds: the parser only ever produces integers. Compositor durations are reals.

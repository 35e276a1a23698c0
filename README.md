# Blind-test pipeline core in Dafny

This project models the three stages of the `blindtest` package that make decisions between calls into
the network and the media library:

- **The source provider** (`fetch_video_clips` and `_build_search_params`). It builds the YouTube Data
  API search parameters and resolves the API key. It keeps the search items that name a video and
  downloads each one, pausing after each download. It returns the clips in API order, or shuffled.
- **The excerpt generator** (`clip_videos`). It validates the duration and chooses where each
  excerpt starts. It requests the sub-range, writes `<id>_clip.mp4` (or `.mp3` in audio-only mode),
  and closes both handles of each video.
- **The sequence assembler** (`build_blindtest`). It validates the inputs and builds the timeline of
  excerpts, each followed by a silent segment when a silence duration is set. It concatenates and
  writes the result, then closes every segment and the concatenation.

Modules:

- `Common` holds `Option`, `Result` with the package's exception kinds, and the parts of `pathlib`
  the stages use. These are `/` (`Join`), `.parent` (`Parent`) and `.with_suffix` (`WithSuffix`).
- `Media` models moviepy as an `Engine` class with an event log: directories made, handles opened,
  files written, handles closed. A `Library` value fixes up front what moviepy can decode, each
  file's duration and frame size, and which targets fail to write.
- `VideoSources` models the network and the downloader as a `YouTube` class. Its answers are fixed
  up front and its calls (search, download, sleep) are logged.

Each stage is an imperative method that runs the loops of the source against these classes. It is
proved against a pure function of the configuration: `Fetch`, `ClipRun` and `Assemble` each return
the calls or events made together with the result or exception. Each method's `ensures` states that
its log and result equal that function. The one exception is `FetchVideoClips` with `randomize` set:
its log still equals `Fetch`'s, but its result is only stated to be a permutation of `Fetch`'s clips. The properties the source promises are proved as lemmas
about those functions.

The random draws are inputs. `random.uniform` is a clamp of a given real into the requested range,
so every value in the range is reachable. `random.shuffle` is Fisher–Yates on an array, with an
index-drawing function as a parameter.

Releasing every media handle on every exit path would need `try`/`finally`. `clip_videos` and
`build_blindtest` have none, so when a load or a write raises, the handles opened so far stay open.
`Clipper.ItemStepLeaksOnFailure` and `Assembler.AssembleLeaksOnFailure` state this.

## Model

| member | source | states |
|---|---|---|
| Common.ReplaceSuffix | src/blindtest/clipper.py:77-79 | replacing the suffix of `stem.ext` keeps `stem` and appends the new suffix |
| Common.Join | src/blindtest/clipper.py:77 | the joined path ends with the name |
| Common.JoinKeepsDirectory | src/blindtest/clipper.py:77 | for a named directory, the joined path starts with the directory and has a separator right before the name |
| Common.Parent | src/blindtest/assembler.py:60-61 | a path without a separator has parent "."; otherwise the parent is "/" or the prefix of the path before its last separator |
| Common.WithSuffix | src/blindtest/clipper.py:78-79 | the result ends with the new suffix; what precedes it is the name, or the name cut at its last dot when that dot starts a suffix |
| Common.ParentOfJoin | src/blindtest/assembler.py:60-61 | the parent of `dir / name` is `dir`, so the directory created for the output is the one holding it |
| Media.Engine.Load | src/blindtest/clipper.py:63-66 | opening a decodable file logs one open and returns its handle; an undecodable file raises and logs nothing |
| Media.Engine.WriteFile | src/blindtest/clipper.py:80-82 | a write either completes (one `Write` event) or raises for an unwritable target and logs nothing |
| Media.Engine.MakeDirs | src/blindtest/clipper.py:57 | logs one `MakeDirs` of the directory and nothing else |
| Media.Engine.Subclip | src/blindtest/clipper.py:76 | returns the sub-range handle of the source from `start` to `end` and logs its opening |
| Media.Engine.Silence | src/blindtest/assembler.py:70 | returns a silent audio handle of the given duration and logs its opening |
| Media.Engine.Blank | src/blindtest/assembler.py:76-77 | returns a black video handle of the given frame size and duration, with silent audio, and logs its opening |
| Media.Engine.ConcatenateAudio | src/blindtest/assembler.py:81 | returns the audio concatenation of the given parts, in order, and logs its opening |
| Media.Engine.ConcatenateVideo | src/blindtest/assembler.py:84 | returns the video concatenation of the given parts with the given method, and logs its opening |
| Media.Engine.Close | src/blindtest/clipper.py:85-86 | logs one `Close` of the handle and nothing else |
| VideoSources.BuildSearchParams | src/blindtest/video_sources.py:80-97 | the exact key set; `part=snippet`, `q`, `maxResults`, `type=video`, `key`, `videoEmbeddable="true"`; `publishedAfter` present iff given and non-empty, with its value |
| VideoSources.ResolveApiKey | src/blindtest/video_sources.py:141 | the argument wins when truthy, otherwise the environment value; a usable key exists iff either is truthy |
| VideoSources.WatchUrl | src/blindtest/video_sources.py:169 | the URL is the watch prefix followed by the id, which can be read back |
| VideoSources.Gather | src/blindtest/video_sources.py:163-175 | the loop makes at most two calls per item; when it completes it keeps at most one clip per item, and its calls are exactly one download followed by one pause per clip kept, in the order the clips were kept |
| VideoSources.GatherStopsAtError | src/blindtest/video_sources.py:163-175 | once an item raised, later items make no calls and change nothing |
| VideoSources.GatherMatchesKept | src/blindtest/video_sources.py:163-175 | the loop succeeds iff every item has an `id` object and every video it names downloads; it then returns exactly the items with a `videoId`, in API order, after one download and one pause per clip, in that order |
| VideoSources.KeptClipsWellFormed | src/blindtest/video_sources.py:164-172 | every returned clip has a non-empty id, the watch URL of that id and the file `<id>.mp4` in the download directory |
| VideoSources.KeptComesFromItems | src/blindtest/video_sources.py:164-172 | every returned clip carries the id of an item naming a video, and that item's title or "Untitled" |
| VideoSources.NothingListedKeepsNothing | src/blindtest/video_sources.py:164-167 | items none of which names a video yield no clips |
| VideoSources.Fetch | src/blindtest/video_sources.py:141-158 | a missing or empty key raises before any call; otherwise the first call is the search with the built parameters; an empty `items` list raises "no videos" |
| VideoSources.FetchReturnsListedItems | src/blindtest/video_sources.py:141-175 | a fetch succeeds iff a key is available, the search answers with items and every item can be processed; it returns the items with a `videoId`, in API order |
| VideoSources.NoVideoIdsIsEmptyResult | src/blindtest/video_sources.py:156-167 | items are present but none has a `videoId`: the result is the empty list, not an error |
| VideoSources.YouTube.CallApi | src/blindtest/video_sources.py:100-110 | one search call is logged; a non-200 status raises with that status, otherwise the items are returned |
| VideoSources.YouTube.DownloadVideo | src/blindtest/video_sources.py:43-45 | one download call is logged; the video is stored as `<id>.mp4` in the directory, or the download raises |
| VideoSources.Shuffle | src/blindtest/video_sources.py:177-178 | the shuffled array is a permutation of the original |
| VideoSources.YouTube.Sleep | src/blindtest/video_sources.py:175 | logs one pause of the given length and nothing else |
| VideoSources.ShuffledCopy | src/blindtest/video_sources.py:177-178 | the shuffled list has the same clips, with the same multiplicities |
| VideoSources.CollectClips | src/blindtest/video_sources.py:160-175 | the loop's calls and result are those of `Gather` |
| VideoSources.FetchVideoClips | src/blindtest/video_sources.py:113-180 | the calls are those of `Fetch` and errors pass through; without `randomize` the result is `Fetch`'s clips, with it a permutation of them |
| Clipper.Uniform | src/blindtest/clipper.py:72 | the draw lies in `[low, high]`, and any value in that range can be drawn |
| Clipper.StartOffset | src/blindtest/clipper.py:68-74 | start 0 when the duration is unknown or shorter than the excerpt; start 0 for any strategy other than "random"; otherwise `0 <= start` and `start + clip_duration <= duration`, and under "random" the start is the draw `Uniform(0, duration - clip_duration, x)` |
| Clipper.RandomStartReachesEveryOffset | src/blindtest/clipper.py:71-72 | under "random", with a source at least as long as the excerpt, a start can occur iff it lies in `[0, duration - clip_duration]` |
| Clipper.ClipNameBySuffix | src/blindtest/clipper.py:77-79 | `<id>_clip.mp4` with its suffix replaced by `.mp3` is `<id>_clip.mp3` |
| Clipper.Excerpt | src/blindtest/clipper.py:68-76 | the sub-range is taken from the source handle, starts at `StartOffset` for the source's duration and ends exactly at `start + clip_duration`, within the source when its duration is long enough |
| Clipper.ItemStep | src/blindtest/clipper.py:62-86 | an iteration completes iff the source decodes and the target is writable, and then yields `TargetPath` |
| Clipper.ItemStepReleases | src/blindtest/clipper.py:80-86 | a completed iteration has exactly one `Write`, of the excerpt to `TargetPath`, as audio exactly in audio-only mode; nothing is opened after the write; each handle it opened is closed after the write |
| Clipper.ItemStepLeaksOnFailure | src/blindtest/clipper.py:62-86 | an iteration that raises has only opened handles: nothing is written or closed |
| Clipper.ClipRun | src/blindtest/clipper.py:51-57 | a non-positive duration raises before any event; the first event of any run is the creation of the output directory |
| Clipper.Generate | src/blindtest/clipper.py:61-86 | the loop logs at most five events per video; when it completes it returns one path per video and logs exactly five events per video |
| Clipper.GenerateStopsAtError | src/blindtest/clipper.py:61-86 | once an iteration raised, later videos change nothing |
| Clipper.GenerateSucceedsIff | src/blindtest/clipper.py:61-86 | the loop completes iff every source decodes and every target is writable |
| Clipper.GenerateOutputsInOrder | src/blindtest/clipper.py:59-88 | a completed loop returns one path per video, in input order, each `<id>_clip.<ext>` in the output directory |
| Clipper.GenerateClosesPerItem | src/blindtest/clipper.py:61-86 | a completed loop is five events per video, and block `i` is video `i`'s completed iteration |
| Clipper.GenerateReleasesBeforeNext | src/blindtest/clipper.py:61-86 | in a completed loop each handle opened at position `k` is closed after it and before position `5 * (k / 5) + 5`, where the next video's events begin |
| Clipper.GenerateFailsAtFirstProblem | src/blindtest/clipper.py:61-86 | a raising loop failed at some video `k`: all earlier videos completed and nothing later happened |
| Clipper.ClipTarget | src/blindtest/clipper.py:77-79 | the computed target is `TargetPath` |
| Clipper.ClipOne | src/blindtest/clipper.py:62-86 | one iteration's media calls and result are those of `ItemStep` |
| Clipper.ClipAll | src/blindtest/clipper.py:59-88 | the loop's media calls and result are those of `Generate` |
| Clipper.ClipVideos | src/blindtest/clipper.py:25-88 | `clip_videos`'s media calls and result are those of `ClipRun` |
| Assembler.SilenceAfter | src/blindtest/assembler.py:69-78 | the gap belongs to the run's mode and lasts the silence duration; in video mode it has the excerpt's frame size |
| Assembler.Segments | src/blindtest/assembler.py:66-78 | one iteration adds the excerpt, then a second segment exactly when the silence duration is non-zero; all of them in the run's mode |
| Assembler.Timeline | src/blindtest/assembler.py:65-78 | the timeline has two segments per excerpt with non-zero silence, one per excerpt otherwise |
| Assembler.TimelineStep | src/blindtest/assembler.py:65-78 | one more decodable excerpt extends the timeline by exactly its segments |
| Assembler.FinalClip | src/blindtest/assembler.py:80-85 | the concatenation is of exactly the timeline, in the run's mode: audio concatenation in audio-only mode, otherwise `method="compose"` |
| Assembler.Produce | src/blindtest/assembler.py:60-92 | the first event creates the output's parent; it succeeds iff every excerpt decodes and the output is writable, and then returns the output path |
| Assembler.ReadablePrefix | src/blindtest/assembler.py:65-73 | the excerpts before the returned index all decode, and the one at it, if any, does not |
| Assembler.Loaded | src/blindtest/assembler.py:63-78 | the first loop succeeds iff every excerpt decodes, and then returns the timeline after opening exactly its segments; on failure it raises for an undecodable excerpt of the input |
| Assembler.Render | src/blindtest/assembler.py:80-90 | rendering succeeds iff the output is writable and returns the output path; a failed write leaves only the concatenation opened |
| Assembler.Assemble | src/blindtest/assembler.py:36-92 | empty input raises first, then negative silence, then a missing library, all before any event; the first event is creating the output's parent; success iff all excerpts decode and the output is writable, returning the output path |
| Assembler.TimelineWithoutSilence | src/blindtest/assembler.py:65-78 | with silence 0 the timeline is exactly the excerpts in input order |
| Assembler.TimelineWithSilence | src/blindtest/assembler.py:65-78 | with non-zero silence the timeline has length 2n, excerpt i at 2i and the silent segment at 2i+1, the last included; in video mode it has the excerpt's frame size and the silence duration |
| Assembler.TimelineInMode | src/blindtest/assembler.py:65-78 | every segment belongs to the run's mode |
| Assembler.AssembleEventOrder | src/blindtest/assembler.py:60-92 | a successful run makes the directory, opens the n segments in order, opens and writes the concatenation, closes the segments in the same order and closes the concatenation last |
| Assembler.AssembleClosesEverything | src/blindtest/assembler.py:87-90 | after a successful write the handle opened at position `k` is closed at position `k + n + 2`, `n` being the number of segments, so every handle is closed after the write and in opening order |
| Assembler.AssembleLeaksOnFailure | src/blindtest/assembler.py:63-92 | a run that raises writes nothing and closes nothing |
| Assembler.AssembleUsesOneMode | src/blindtest/assembler.py:66-85 | audio-only mode opens only audio excerpts, silences and the audio concatenation; video mode opens no audio concatenation and composes with "compose"; every write is of the concatenation of the whole timeline, in the run's mode, to the output path |
| Assembler.RenderInMode | src/blindtest/assembler.py:80-90 | given in-mode segments, rendering opens only in-mode handles and writes only their concatenation, in the run's mode, to the output path |
| Assembler.LoadTimeline | src/blindtest/assembler.py:63-78 | the first loop's media calls and result are those of `Loaded` |
| Assembler.CloseAll | src/blindtest/assembler.py:87-88 | closes the given handles in order |
| Assembler.RenderFile | src/blindtest/assembler.py:80-90 | concatenation, write and closes are those of `Render` |
| Assembler.ProduceFile | src/blindtest/assembler.py:60-92 | everything after the checks is `Produce` |
| Assembler.BuildBlindtest | src/blindtest/assembler.py:36-92 | `build_blindtest`'s media calls and result are those of `Assemble` |

## Left out

- `main.py`: the command line, logging, the removal of the temporary directories, and the mapping of the three error kinds to exit status 1.
- `_download_video` internals: pytube, youtube_dl and their missing-module errors. A download either stores `<id>.mp4` or raises `DownloadFailed`, as the `YouTube` object is configured.
- `_call_youtube_api` internals: the HTTP request, its timeout, the missing `requests` package, and JSON decoding. A search either answers with a status other than 200 or with an `items` list, and an answer without `items` is the empty list.
- Search items are assumed to have a string title or none; an explicit `null` title is not modelled.
- moviepy internals: decoding, encoding, the actual concatenation, and whether `subclip` accepts an end past the source's duration. A file either decodes (with a known or unknown duration and a frame size) or raises; a write either completes or raises.
- `_load_moviepy`: reduced to one flag, `Library.installed`. The audio track attached to the black frame is part of the `BlankVideo` handle, not a handle of its own.
- Clipper.Uniform: states the range and reachability of `random.uniform`, not its distribution. The drawn value is an input, one per video.
- VideoSources.Shuffle: states that the result is a permutation, not that it is uniform. The index draws are an input function.
- `time.sleep` is a logged `Sleep(0.1)` call; no time passes. `mkdir` is a logged `MakeDirs` event; whether the directory existed is not modelled.
- Durations are exact reals; floating-point rounding is not modelled.
- Keyword defaults are not modelled: every request field is given explicitly. The source's defaults, such as `clip_duration=10.0`, `start_strategy="random"`, `silence_duration=1.0`, `output_path="blindtest.mp4"` and `randomize=True`, are left to the caller.
- Handles are values without identity, so Python object aliasing is not modelled. Two silent segments of equal duration are equal handles; `Assembler.AssembleClosesEverything` therefore matches opens to closes by position.
- Paths are strings. `Join` and `Parent` follow `pathlib` for paths without doubled or trailing separators; normalisation is not modelled.

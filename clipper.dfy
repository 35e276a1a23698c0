/** The excerpt generator (`clip_videos`): for each downloaded video, open it,
    choose where the excerpt starts, request the sub-range, write it to
    `<id>_clip.mp4` (or `.mp3` in audio-only mode) and close both handles.
    The random source is replaced by one real per video, which `Uniform`
    clamps into the range `random.uniform` draws from. */
module Clipper {
  import opened Common
  import opened Media
  import opened VideoSources

  /** The keyword arguments of `clip_videos`. */
  datatype ClipRequest = ClipRequest(clipDuration: real, outputDir: Path, startStrategy: string, audioOnly: bool)

  function Max(a: real, b: real): real {
    if a >= b then a else b
  }

  /** `random.uniform(low, high)` for `low <= high`, given the value `x` the
      random source produced: any value in the range is returned as it is,
      so every outcome the source can have is reachable with some `x`. */
  function Uniform(low: real, high: real, x: real): (r: real)
    requires low <= high
    ensures low <= r <= high
    ensures low <= x <= high ==> r == x
  {
    if x < low then low else if x > high then high else x
  }

  /** Where the excerpt starts in a source of the given duration. */
  function StartOffset(duration: Option<real>, clipDuration: real, strategy: string, x: real): (start: real)
    ensures duration.None? || duration.value < clipDuration ==> start == 0.0
    ensures strategy != "random" ==> start == 0.0
    ensures duration.Some? && duration.value >= clipDuration ==> 0.0 <= start && start + clipDuration <= duration.value
    ensures strategy == "random" && duration.Some? && duration.value >= clipDuration ==>
              start == Uniform(0.0, duration.value - clipDuration, x)
  {
    if duration.None? || duration.value < clipDuration then 0.0
    else if strategy == "random" then
      Uniform(0.0, Max(0.0, duration.value - clipDuration), x)
    else 0.0
  }

  /** Under the "random" strategy every admissible start can occur: for a
      source of duration `d` at least `c`, each start in `[0, d - c]` is the
      outcome of some draw, and no other start is. */
  lemma RandomStartReachesEveryOffset(d: real, c: real, s: real)
    requires c <= d
    ensures 0.0 <= s <= d - c ==> exists x :: StartOffset(Some(d), c, "random", x) == s
    ensures (exists x :: StartOffset(Some(d), c, "random", x) == s) ==> 0.0 <= s <= d - c
  {
    if 0.0 <= s <= d - c {
      assert StartOffset(Some(d), c, "random", s) == s;
    }
  }

  /** File name of the excerpt of video `videoId`. */
  function ClipName(videoId: string, audioOnly: bool): string {
    videoId + (if audioOnly then "_clip.mp3" else "_clip.mp4")
  }

  /** `clip_videos` names the excerpt `<id>_clip.mp4` and, in audio-only mode,
      replaces that suffix by `.mp3`: this yields `ClipName`. */
  lemma ClipNameBySuffix(videoId: string)
    ensures WithSuffix(videoId + "_clip.mp4", ".mp3") == ClipName(videoId, true)
  {
    assert videoId + "_clip.mp4" == (videoId + "_clip") + "." + "mp4";
    ReplaceSuffix(videoId + "_clip", "mp4", ".mp3");
  }

  function TargetPath(request: ClipRequest, videoId: string): Path {
    Join(request.outputDir, ClipName(videoId, request.audioOnly))
  }

  /** The sub-range requested from the source clip of `clip`, which the
      library can decode. */
  function Excerpt(lib: Library, clip: VideoClip, request: ClipRequest, x: real): (sub: Handle)
    requires clip.filePath in lib.files
    ensures sub.SubClip? && sub.source == FileClip(clip.filePath, request.audioOnly)
    ensures sub.start == StartOffset(lib.files[clip.filePath].duration, request.clipDuration, request.startStrategy, x)
    ensures 0.0 <= sub.start && sub.end == sub.start + request.clipDuration
    ensures var d := lib.files[clip.filePath].duration;
            d.Some? && d.value >= request.clipDuration ==> sub.end <= d.value
  {
    var start := StartOffset(lib.files[clip.filePath].duration, request.clipDuration, request.startStrategy, x);
    SubClip(FileClip(clip.filePath, request.audioOnly), start, start + request.clipDuration)
  }

  /** One iteration of the loop of `clip_videos`. It completes exactly when
      the source can be decoded and the target written; when the write raises,
      the two handles it opened are never closed. */
  function ItemStep(lib: Library, clip: VideoClip, request: ClipRequest, x: real): (o: Outcome<Path>)
    ensures o.result.Ok? <==> clip.filePath in lib.files && TargetPath(request, clip.videoId) !in lib.unwritable
    ensures o.result.Ok? ==> o.result.value == TargetPath(request, clip.videoId)
    ensures o.result.Err? ==> forall k :: 0 <= k < |o.events| ==> !o.events[k].Close? && !o.events[k].Write?
  {
    if clip.filePath !in lib.files then Outcome([], Err(MediaFailure(clip.filePath)))
    else
      var source := FileClip(clip.filePath, request.audioOnly);
      var sub := Excerpt(lib, clip, request, x);
      var target := TargetPath(request, clip.videoId);
      if target in lib.unwritable then Outcome([Open(source), Open(sub)], Err(MediaFailure(target)))
      else Outcome([Open(source), Open(sub), Write(sub, target, request.audioOnly), Close(source), Close(sub)], Ok(target))
  }

  /** A completed iteration writes once and releases what it opened: its one
      `Write` is of the excerpt, to `TargetPath`, as audio exactly in
      audio-only mode; nothing is opened after the write; and each handle it
      opened is closed after the write. */
  lemma ItemStepReleases(lib: Library, clip: VideoClip, request: ClipRequest, x: real)
    requires ItemStep(lib, clip, request, x).result.Ok?
    ensures clip.filePath in lib.files
    ensures var events := ItemStep(lib, clip, request, x).events;
            |events| == 5
            && events[2] == Write(Excerpt(lib, clip, request, x), TargetPath(request, clip.videoId), request.audioOnly)
            && (forall k :: 0 <= k < |events| && k != 2 ==> !events[k].Write?)
            && (forall k :: 2 < k < |events| ==> !events[k].Open?)
            && (forall k :: 0 <= k < |events| && events[k].Open? ==>
                  exists m :: 2 < m < |events| && events[m] == Close(events[k].handle))
  {
    var events := ItemStep(lib, clip, request, x).events;
    assert events[3] == Close(events[0].handle) && events[4] == Close(events[1].handle);
  }

  /** `clip_videos` has no `finally`: when an iteration raises, it has
      written nothing and closed nothing, leaving open whatever it opened. */
  lemma ItemStepLeaksOnFailure(lib: Library, clip: VideoClip, request: ClipRequest, x: real)
    requires ItemStep(lib, clip, request, x).result.Err?
    ensures forall e :: e in ItemStep(lib, clip, request, x).events ==> e.Open?
  {
  }

  /** The loop of `clip_videos` over the first `n` videos. */
  function Generate(lib: Library, clips: seq<VideoClip>, request: ClipRequest, draws: seq<real>, n: nat): (o: Outcome<seq<Path>>)
    requires |draws| == |clips| && n <= |clips|
    ensures |o.events| <= 5 * n
    ensures o.result.Ok? ==> |o.result.value| == n && |o.events| == 5 * n
  {
    if n == 0 then Outcome([], Ok([]))
    else
      var before := Generate(lib, clips, request, draws, n - 1);
      if before.result.Err? then before
      else
        var step := ItemStep(lib, clips[n - 1], request, draws[n - 1]);
        Outcome(before.events + step.events,
                if step.result.Err? then Err(step.result.error) else Ok(before.result.value + [step.result.value]))
  }

  /** `clip_videos`: validation, then the library check, then the output
      directory, then the loop. A non-positive duration is rejected before
      anything else happens. */
  function ClipRun(lib: Library, clips: seq<VideoClip>, request: ClipRequest, draws: seq<real>): (o: Outcome<seq<Path>>)
    requires |draws| == |clips|
    ensures request.clipDuration <= 0.0 ==> o == Outcome([], Err(ClipGenerationError(NonPositiveDuration)))
    ensures o.events != [] ==> o.events[0] == MakeDirs(request.outputDir)
  {
    if request.clipDuration <= 0.0 then Outcome([], Err(ClipGenerationError(NonPositiveDuration)))
    else if !lib.installed then Outcome([], Err(ClipGenerationError(ClipperMoviepyMissing)))
    else
      var g := Generate(lib, clips, request, draws, |clips|);
      Outcome([MakeDirs(request.outputDir)] + g.events, g.result)
  }

  /** Once an iteration has raised, later videos change nothing. */
  lemma {:induction false} GenerateStopsAtError(lib: Library, clips: seq<VideoClip>, request: ClipRequest, draws: seq<real>, k: nat, n: nat)
    requires |draws| == |clips| && k <= n <= |clips|
    requires Generate(lib, clips, request, draws, k).result.Err?
    ensures Generate(lib, clips, request, draws, n) == Generate(lib, clips, request, draws, k)
    decreases n
  {
    if k < n {
      GenerateStopsAtError(lib, clips, request, draws, k, n - 1);
    }
  }

  /** The loop completes exactly when every source can be decoded and every
      target written. */
  lemma {:induction false} GenerateSucceedsIff(lib: Library, clips: seq<VideoClip>, request: ClipRequest, draws: seq<real>, n: nat)
    requires |draws| == |clips| && n <= |clips|
    ensures Generate(lib, clips, request, draws, n).result.Ok? <==>
              forall i :: 0 <= i < n ==>
                clips[i].filePath in lib.files && TargetPath(request, clips[i].videoId) !in lib.unwritable
  {
    if n > 0 {
      GenerateSucceedsIff(lib, clips, request, draws, n - 1);
    }
  }

  /** A completed loop returns one path per video, in input order, each
      `<id>_clip.<ext>` in the output directory. */
  lemma {:induction false} GenerateOutputsInOrder(lib: Library, clips: seq<VideoClip>, request: ClipRequest, draws: seq<real>, n: nat)
    requires |draws| == |clips| && n <= |clips|
    requires Generate(lib, clips, request, draws, n).result.Ok?
    ensures |Generate(lib, clips, request, draws, n).result.value| == n
    ensures forall i :: 0 <= i < n ==>
              Generate(lib, clips, request, draws, n).result.value[i] == TargetPath(request, clips[i].videoId)
  {
    if n > 0 {
      var before := Generate(lib, clips, request, draws, n - 1);
      var step := ItemStep(lib, clips[n - 1], request, draws[n - 1]);
      var paths := Generate(lib, clips, request, draws, n).result.value;
      assert before.result.Ok? && step.result.Ok?;
      assert paths == before.result.value + [step.result.value];
      GenerateOutputsInOrder(lib, clips, request, draws, n - 1);
    }
  }

  /** Block `i` of five events in `before + step`, where `before` holds
      `n - 1` blocks and `step` one. */
  lemma BlockOfAppend<T>(before: seq<T>, step: seq<T>, i: nat, n: nat)
    requires 1 <= n && |before| == 5 * (n - 1) && |step| == 5 && i < n
    ensures i < n - 1 ==> (before + step)[5 * i .. 5 * i + 5] == before[5 * i .. 5 * i + 5]
    ensures i == n - 1 ==> (before + step)[5 * i .. 5 * i + 5] == step
  {
  }

  /** A completed loop handles the videos one after the other, each in five
      steps: open the source, open the excerpt, write it, close the source,
      close the excerpt. So both handles of a video are closed before the next
      video is opened. */
  lemma {:induction false} GenerateClosesPerItem(lib: Library, clips: seq<VideoClip>, request: ClipRequest, draws: seq<real>, n: nat)
    requires |draws| == |clips| && n <= |clips|
    requires Generate(lib, clips, request, draws, n).result.Ok?
    ensures |Generate(lib, clips, request, draws, n).events| == 5 * n
    ensures forall i :: 0 <= i < n ==>
              ItemStep(lib, clips[i], request, draws[i]).result.Ok?
              && Generate(lib, clips, request, draws, n).events[5 * i .. 5 * i + 5] == ItemStep(lib, clips[i], request, draws[i]).events
  {
    if n > 0 {
      var before := Generate(lib, clips, request, draws, n - 1);
      var step := ItemStep(lib, clips[n - 1], request, draws[n - 1]);
      var events := Generate(lib, clips, request, draws, n).events;
      assert before.result.Ok? && step.result.Ok?;
      assert events == before.events + step.events;
      GenerateClosesPerItem(lib, clips, request, draws, n - 1);
      ItemStepReleases(lib, clips[n - 1], request, draws[n - 1]);
      forall i | 0 <= i < n
        ensures ItemStep(lib, clips[i], request, draws[i]).result.Ok?
        ensures events[5 * i .. 5 * i + 5] == ItemStep(lib, clips[i], request, draws[i]).events
      {
        BlockOfAppend(before.events, step.events, i, n);
      }
    }
  }

  /** Nothing in `block` is opened from the write at position 2 on, and each
      handle opened before it is closed after it. */
  predicate ReleasedAfterWrite(block: seq<Event>) {
    (forall k :: 2 <= k < |block| ==> !block[k].Open?)
    && (forall k :: 0 <= k < |block| && block[k].Open? ==>
          exists m :: 2 < m < |block| && block[m] == Close(block[k].handle))
  }

  /** A log made of `n` five-event blocks, each releasing what it opens,
      closes every handle before the block after it begins. */
  lemma ReleasedPerBlock(events: seq<Event>, n: nat)
    requires |events| == 5 * n
    requires forall i :: 0 <= i < n ==> ReleasedAfterWrite(events[5 * i .. 5 * i + 5])
    ensures forall k :: 0 <= k < |events| && events[k].Open? ==>
              exists m :: k < m < 5 * (k / 5) + 5 && m < |events| && events[m] == Close(events[k].handle)
  {
    forall k | 0 <= k < |events| && events[k].Open?
      ensures exists m :: k < m < 5 * (k / 5) + 5 && m < |events| && events[m] == Close(events[k].handle)
    {
      var i := k / 5;
      var j := k - 5 * i;
      assert 0 <= i < n && 0 <= j < 5;
      var block := events[5 * i .. 5 * i + 5];
      assert block[j] == events[k];
      assert ReleasedAfterWrite(block);
      var m' :| 2 < m' < 5 && block[m'] == Close(block[j].handle);
      assert j < 2 && k < 5 * i + m' < 5 * (k / 5) + 5;
      assert events[5 * i + m'] == block[m'];
    }
  }

  /** In a completed loop every handle is closed before the next video is
      touched: the handle opened at position `k` belongs to video `k / 5`, and
      its close comes after it and before position `5 * (k / 5) + 5`, where the
      next video's events begin. */
  lemma {:induction false} GenerateReleasesBeforeNext(lib: Library, clips: seq<VideoClip>, request: ClipRequest, draws: seq<real>, n: nat)
    requires |draws| == |clips| && n <= |clips|
    requires Generate(lib, clips, request, draws, n).result.Ok?
    ensures var events := Generate(lib, clips, request, draws, n).events;
            forall k :: 0 <= k < |events| && events[k].Open? ==>
              exists m :: k < m < 5 * (k / 5) + 5 && m < |events| && events[m] == Close(events[k].handle)
  {
    GenerateClosesPerItem(lib, clips, request, draws, n);
    var events := Generate(lib, clips, request, draws, n).events;
    forall i | 0 <= i < n
      ensures ReleasedAfterWrite(events[5 * i .. 5 * i + 5])
    {
      ItemStepReleases(lib, clips[i], request, draws[i]);
    }
    ReleasedPerBlock(events, n);
  }

  /** When the loop raises, it did so at some video `k`: every earlier video
      was handled completely and nothing after `k` was touched. */
  lemma {:induction false} GenerateFailsAtFirstProblem(lib: Library, clips: seq<VideoClip>, request: ClipRequest, draws: seq<real>, n: nat)
    requires |draws| == |clips| && n <= |clips|
    requires Generate(lib, clips, request, draws, n).result.Err?
    ensures exists k :: 0 <= k < n
              && Generate(lib, clips, request, draws, k).result.Ok?
              && ItemStep(lib, clips[k], request, draws[k]).result.Err?
              && Generate(lib, clips, request, draws, n) ==
                   Outcome(Generate(lib, clips, request, draws, k).events + ItemStep(lib, clips[k], request, draws[k]).events,
                           Err(ItemStep(lib, clips[k], request, draws[k]).result.error))
  {
    var before := Generate(lib, clips, request, draws, n - 1);
    if before.result.Err? {
      assert Generate(lib, clips, request, draws, n) == before;
      GenerateFailsAtFirstProblem(lib, clips, request, draws, n - 1);
      var k :| 0 <= k < n - 1
               && Generate(lib, clips, request, draws, k).result.Ok?
               && ItemStep(lib, clips[k], request, draws[k]).result.Err?
               && before == Outcome(Generate(lib, clips, request, draws, k).events + ItemStep(lib, clips[k], request, draws[k]).events,
                                    Err(ItemStep(lib, clips[k], request, draws[k]).result.error));
    } else {
      var step := ItemStep(lib, clips[n - 1], request, draws[n - 1]);
      assert step.result.Err?;
      assert Generate(lib, clips, request, draws, n) == Outcome(before.events + step.events, Err(step.result.error));
    }
  }

  /** `output_path / f"{id}_clip.mp4"`, with its suffix replaced by `.mp3`
      in audio-only mode. */
  method ClipTarget(request: ClipRequest, videoId: string) returns (target: Path)
    ensures target == TargetPath(request, videoId)
  {
    target := Join(request.outputDir, videoId + "_clip.mp4");
    if request.audioOnly {
      target := Join(request.outputDir, WithSuffix(videoId + "_clip.mp4", ".mp3"));
      ClipNameBySuffix(videoId);
    }
  }

  /** The body of the loop of `clip_videos`, for one video. */
  method ClipOne(engine: Engine, clip: VideoClip, request: ClipRequest, x: real) returns (r: Result<Path>)
    modifies engine
    ensures engine.log == old(engine.log) + ItemStep(engine.lib, clip, request, x).events
    ensures r == ItemStep(engine.lib, clip, request, x).result
  {
    var loaded := engine.Load(clip.filePath, request.audioOnly);
    if loaded.Err? {
      return Err(loaded.error);
    }
    var media := loaded.value;
    var duration := engine.lib.files[clip.filePath].duration;
    var start := StartOffset(duration, request.clipDuration, request.startStrategy, x);
    var subclip := engine.Subclip(media, start, start + request.clipDuration);
    var target := ClipTarget(request, clip.videoId);
    var written := engine.WriteFile(subclip, target, request.audioOnly);
    if written.Err? {
      return Err(written.error);
    }
    engine.Close(media);
    engine.Close(subclip);
    r := Ok(target);
  }

  /** The loop of `clip_videos`: one excerpt per video, in input order,
      stopping at the first video that raises. */
  method ClipAll(engine: Engine, clips: seq<VideoClip>, request: ClipRequest, draws: seq<real>)
    returns (r: Result<seq<Path>>)
    requires |draws| == |clips|
    modifies engine
    ensures engine.log == old(engine.log) + Generate(engine.lib, clips, request, draws, |clips|).events
    ensures r == Generate(engine.lib, clips, request, draws, |clips|).result
  {
    var generated: seq<Path> := [];
    var i := 0;
    while i < |clips|
      invariant 0 <= i <= |clips|
      invariant engine.log == old(engine.log) + Generate(engine.lib, clips, request, draws, i).events
      invariant Generate(engine.lib, clips, request, draws, i).result == Ok(generated)
    {
      var target := ClipOne(engine, clips[i], request, draws[i]);
      AppendAssoc(old(engine.log), Generate(engine.lib, clips, request, draws, i).events,
                  ItemStep(engine.lib, clips[i], request, draws[i]).events);
      if target.Err? {
        GenerateStopsAtError(engine.lib, clips, request, draws, i + 1, |clips|);
        return Err(target.error);
      }
      generated := generated + [target.value];
      i := i + 1;
    }
    r := Ok(generated);
  }

  /** `clip_videos`: the media calls it makes are those of `ClipRun`, and it
      returns or raises what `ClipRun` does. */
  method ClipVideos(engine: Engine, clips: seq<VideoClip>, request: ClipRequest, draws: seq<real>)
    returns (r: Result<seq<Path>>)
    requires |draws| == |clips|
    modifies engine
    ensures engine.log == old(engine.log) + ClipRun(engine.lib, clips, request, draws).events
    ensures r == ClipRun(engine.lib, clips, request, draws).result
  {
    if request.clipDuration <= 0.0 {
      return Err(ClipGenerationError(NonPositiveDuration));
    }
    if !engine.lib.installed {
      return Err(ClipGenerationError(ClipperMoviepyMissing));
    }
    engine.MakeDirs(request.outputDir);
    r := ClipAll(engine, clips, request, draws);
  }
}

/** The sequence assembler (`build_blindtest`): check the inputs, open every
    excerpt in order, follow each one with a silent segment when a silence
    duration is set, concatenate the segments, write the result once, then
    close every segment and finally the concatenation. */
module Assembler {
  import opened Common
  import opened Media

  /** The keyword arguments of `build_blindtest`. */
  datatype AssemblyRequest = AssemblyRequest(outputPath: Path, silenceDuration: real, audioOnly: bool)

  /** Every excerpt can be decoded. */
  predicate Readable(lib: Library, clips: seq<Path>) {
    forall i :: 0 <= i < |clips| ==> clips[i] in lib.files
  }

  /** How many excerpts, from the first, can be decoded: the loop opens these
      and raises on the next one, if any. */
  function ReadablePrefix(lib: Library, clips: seq<Path>): (k: nat)
    ensures k <= |clips| && Readable(lib, clips[..k])
    ensures k < |clips| ==> clips[k] !in lib.files
  {
    if clips == [] || clips[0] !in lib.files then 0
    else
      var k := 1 + ReadablePrefix(lib, clips[1..]);
      assert forall i :: 1 <= i < k ==> clips[..k][i] == clips[1..][..k - 1][i - 1];
      k
  }

  lemma {:induction false} ReadablePrefixIs(lib: Library, clips: seq<Path>, k: nat)
    requires k <= |clips| && Readable(lib, clips[..k])
    requires k < |clips| ==> clips[k] !in lib.files
    ensures ReadablePrefix(lib, clips) == k
  {
    if k > 0 {
      assert clips[..k][0] == clips[0];
      assert clips[1..][..k - 1] == clips[..k][1..];
      ReadablePrefixIs(lib, clips[1..], k - 1);
    }
  }

  /** The silent segment put after excerpt `clip`: silence only, or in video
      mode a black frame of the excerpt's size with silent audio. */
  function SilenceAfter(lib: Library, clip: Path, silence: real, audioOnly: bool): (gap: Handle)
    requires clip in lib.files
    ensures InMode(gap, audioOnly) && (gap.SilentAudio? || gap.BlankVideo?) && gap.duration == silence
    ensures gap.BlankVideo? ==> gap.size == lib.files[clip].size
  {
    if audioOnly then SilentAudio(silence) else BlankVideo(lib.files[clip].size, silence)
  }

  /** What one iteration of the first loop appends: the excerpt, then a
      silent segment when the silence duration is non-zero. */
  function Segments(lib: Library, clip: Path, silence: real, audioOnly: bool): (segs: seq<Handle>)
    requires clip in lib.files
    ensures 1 <= |segs| <= 2 && segs[0] == FileClip(clip, audioOnly)
    ensures |segs| == 2 <==> silence != 0.0
    ensures forall h :: h in segs ==> InMode(h, audioOnly)
  {
    [FileClip(clip, audioOnly)] + (if silence != 0.0 then [SilenceAfter(lib, clip, silence, audioOnly)] else [])
  }

  /** The segments, in order, that the first loop assembles from `clips`. */
  function Timeline(lib: Library, clips: seq<Path>, silence: real, audioOnly: bool): (segs: seq<Handle>)
    requires Readable(lib, clips)
    ensures |segs| == if silence != 0.0 then 2 * |clips| else |clips|
    decreases |clips|
  {
    if clips == [] then []
    else
      var n := |clips| - 1;
      assert Readable(lib, clips[..n]);
      Timeline(lib, clips[..n], silence, audioOnly) + Segments(lib, clips[n], silence, audioOnly)
  }

  /** The first loop of `build_blindtest`: the handles it opens, and the
      segments it assembles or the excerpt it raises on. It opens the
      segments of the decodable excerpts before the first one that is not. */
  function Loaded(lib: Library, clips: seq<Path>, silence: real, audioOnly: bool): (o: Outcome<seq<Handle>>)
    ensures o.result.Ok? <==> Readable(lib, clips)
    ensures o.result.Ok? ==> o.result.value == Timeline(lib, clips, silence, audioOnly) && o.events == Opens(o.result.value)
    ensures o.result.Err? ==> o.result.error.MediaFailure? && o.result.error.path in clips
                              && o.result.error.path !in lib.files
  {
    var k := ReadablePrefix(lib, clips);
    var segs := Timeline(lib, clips[..k], silence, audioOnly);
    if k < |clips| then Outcome(Opens(segs), Err(MediaFailure(clips[k])))
    else
      assert clips[..k] == clips;
      Outcome(Opens(segs), Ok(segs))
  }

  /** The concatenation of the segments: `concatenate_audioclips` in audio-only
      mode, otherwise `concatenate_videoclips(method="compose")`. */
  function FinalClip(timeline: seq<Handle>, audioOnly: bool): (final: Handle)
    ensures (final.AudioConcat? || final.VideoConcat?) && final.parts == timeline
    ensures InMode(final, audioOnly)
  {
    if audioOnly then AudioConcat(timeline) else VideoConcat(timeline, "compose")
  }

  /** The end of `build_blindtest`, given the assembled segments: concatenate
      them, write the result, then close every segment and the concatenation.
      When the write raises nothing is closed. */
  function Render(lib: Library, segs: seq<Handle>, request: AssemblyRequest): (o: Outcome<Path>)
    ensures o.result.Ok? <==> request.outputPath !in lib.unwritable
    ensures o.result.Ok? ==> o.result.value == request.outputPath
    ensures o.result.Err? ==> o.result == Err(MediaFailure(request.outputPath))
                              && o.events == [Open(FinalClip(segs, request.audioOnly))]
  {
    var final := FinalClip(segs, request.audioOnly);
    if request.outputPath in lib.unwritable then
      Outcome([Open(final)], Err(MediaFailure(request.outputPath)))
    else
      Outcome([Open(final), Write(final, request.outputPath, request.audioOnly)] + Closes(segs) + [Close(final)],
              Ok(request.outputPath))
  }

  /** `build_blindtest`: the effects it has and what it returns or raises.
      Nothing happens before both input checks and the library check pass,
      and they are made in that order; the run succeeds exactly when every
      excerpt can be decoded and the output written, and then returns the
      output path. */
  function Assemble(lib: Library, clips: seq<Path>, request: AssemblyRequest): (o: Outcome<Path>)
    ensures |clips| == 0 ==> o == Outcome([], Err(AssemblyError(NoClips)))
    ensures |clips| > 0 && request.silenceDuration < 0.0 ==> o == Outcome([], Err(AssemblyError(NegativeSilence)))
    ensures |clips| > 0 && request.silenceDuration >= 0.0 && !lib.installed ==>
              o == Outcome([], Err(AssemblyError(AssemblerMoviepyMissing)))
    ensures o.events != [] ==> o.events[0] == MakeDirs(Parent(request.outputPath))
    ensures o.result.Ok? <==>
              |clips| > 0 && request.silenceDuration >= 0.0 && lib.installed
              && Readable(lib, clips) && request.outputPath !in lib.unwritable
    ensures o.result.Ok? ==> o.result.value == request.outputPath
  {
    if |clips| == 0 then Outcome([], Err(AssemblyError(NoClips)))
    else if request.silenceDuration < 0.0 then Outcome([], Err(AssemblyError(NegativeSilence)))
    else if !lib.installed then Outcome([], Err(AssemblyError(AssemblerMoviepyMissing)))
    else Produce(lib, clips, request)
  }

  /** What `build_blindtest` does once its checks have passed: create the
      output directory, run the first loop, then render. */
  function Produce(lib: Library, clips: seq<Path>, request: AssemblyRequest): (o: Outcome<Path>)
    ensures o.events != [] && o.events[0] == MakeDirs(Parent(request.outputPath))
    ensures o.result.Ok? <==> Readable(lib, clips) && request.outputPath !in lib.unwritable
    ensures o.result.Ok? ==> o.result.value == request.outputPath
  {
    var loaded := Loaded(lib, clips, request.silenceDuration, request.audioOnly);
    var setup := [MakeDirs(Parent(request.outputPath))] + loaded.events;
    if loaded.result.Err? then Outcome(setup, Err(loaded.result.error))
    else
      var rendered := Render(lib, loaded.result.value, request);
      Outcome(setup + rendered.events, rendered.result)
  }

  /** Without silence the timeline is exactly the excerpts, in input order. */
  lemma {:induction false} TimelineWithoutSilence(lib: Library, clips: seq<Path>, audioOnly: bool)
    requires Readable(lib, clips)
    ensures |Timeline(lib, clips, 0.0, audioOnly)| == |clips|
    ensures forall i :: 0 <= i < |clips| ==> Timeline(lib, clips, 0.0, audioOnly)[i] == FileClip(clips[i], audioOnly)
    decreases |clips|
  {
    if clips != [] {
      var n := |clips| - 1;
      TimelineWithoutSilence(lib, clips[..n], audioOnly);
      var t := Timeline(lib, clips, 0.0, audioOnly);
      var before := Timeline(lib, clips[..n], 0.0, audioOnly);
      assert t == before + [FileClip(clips[n], audioOnly)];
      forall i | 0 <= i < |clips|
        ensures t[i] == FileClip(clips[i], audioOnly)
      {
        if i < n { assert clips[..n][i] == clips[i]; }
      }
    }
  }

  /** With a silence duration set, excerpt `i` sits at position `2i` and the
      silent segment after it at `2i + 1`, the last excerpt included; in video
      mode that segment has the frame size of the excerpt before it. */
  lemma {:induction false} TimelineWithSilence(lib: Library, clips: seq<Path>, silence: real, audioOnly: bool)
    requires Readable(lib, clips) && silence != 0.0
    ensures |Timeline(lib, clips, silence, audioOnly)| == 2 * |clips|
    ensures forall i :: 0 <= i < |clips| ==>
              Timeline(lib, clips, silence, audioOnly)[2 * i] == FileClip(clips[i], audioOnly)
              && Timeline(lib, clips, silence, audioOnly)[2 * i + 1] ==
                   (if audioOnly then SilentAudio(silence) else BlankVideo(lib.files[clips[i]].size, silence))
    decreases |clips|
  {
    if clips != [] {
      var n := |clips| - 1;
      TimelineWithSilence(lib, clips[..n], silence, audioOnly);
      var t := Timeline(lib, clips, silence, audioOnly);
      var before := Timeline(lib, clips[..n], silence, audioOnly);
      assert t == before + [FileClip(clips[n], audioOnly), SilenceAfter(lib, clips[n], silence, audioOnly)];
      forall i | 0 <= i < |clips|
        ensures t[2 * i] == FileClip(clips[i], audioOnly)
        ensures t[2 * i + 1] == (if audioOnly then SilentAudio(silence) else BlankVideo(lib.files[clips[i]].size, silence))
      {
        if i < n {
          assert clips[..n][i] == clips[i];
          assert t[2 * i] == before[2 * i] && t[2 * i + 1] == before[2 * i + 1];
        }
      }
    }
  }

  /** A handle that belongs to the run's mode: excerpts opened as audio
      exactly in audio-only mode, black frames only in video mode, the audio
      concatenation only in audio-only mode and the composed video
      concatenation only in video mode. */
  predicate InMode(h: Handle, audioOnly: bool) {
    match h
    case FileClip(_, audio) => audio == audioOnly
    case SilentAudio(_) => true
    case BlankVideo(_, _) => !audioOnly
    case AudioConcat(_) => audioOnly
    case VideoConcat(_, how) => !audioOnly && how == "compose"
    case SubClip(_, _, _) => false
  }

  lemma {:induction false} TimelineInMode(lib: Library, clips: seq<Path>, silence: real, audioOnly: bool)
    requires Readable(lib, clips)
    ensures forall h :: h in Timeline(lib, clips, silence, audioOnly) ==> InMode(h, audioOnly)
    decreases |clips|
  {
    if clips != [] {
      var n := |clips| - 1;
      TimelineInMode(lib, clips[..n], silence, audioOnly);
    }
  }

  /** A successful run is the setup followed by the rendering of the whole
      timeline. */
  lemma AssembleOk(lib: Library, clips: seq<Path>, request: AssemblyRequest)
    requires Assemble(lib, clips, request).result.Ok?
    ensures Readable(lib, clips)
    ensures var segs := Timeline(lib, clips, request.silenceDuration, request.audioOnly);
            Assemble(lib, clips, request).events ==
              [MakeDirs(Parent(request.outputPath))] + Opens(segs) + Render(lib, segs, request).events
  {
  }

  /** The events of a successful run, position by position: the output
      directory is created, the `n` segments are opened in timeline order,
      the concatenation is opened and written, the segments are closed in the
      same order, and the concatenation is closed last. */
  predicate RunShape(events: seq<Event>, dir: Path, segs: seq<Handle>, final: Handle, target: Path, audio: bool) {
    var n := |segs|;
    |events| == 2 * n + 4
    && events[0] == MakeDirs(dir)
    && (forall k :: 1 <= k <= n ==> events[k] == Open(segs[k - 1]))
    && (forall k :: n + 3 <= k < 2 * n + 3 ==> events[k] == Close(segs[k - n - 3]))
    && events[n + 1] == Open(final)
    && events[n + 2] == Write(final, target, audio)
    && events[2 * n + 3] == Close(final)
  }

  lemma SuccessShape(dir: Path, segs: seq<Handle>, final: Handle, target: Path, audio: bool)
    ensures RunShape([MakeDirs(dir)] + Opens(segs) + ([Open(final), Write(final, target, audio)] + Closes(segs) + [Close(final)]),
                     dir, segs, final, target, audio)
  {
    var n := |segs|;
    var front := [MakeDirs(dir)] + Opens(segs);
    var closes := Closes(segs);
    var back := [Open(final), Write(final, target, audio)] + closes + [Close(final)];
    var events := front + back;
    forall k | 1 <= k <= n
      ensures events[k] == Open(segs[k - 1])
    {
      assert events[k] == front[k];
    }
    forall k | n + 3 <= k < 2 * n + 3
      ensures events[k] == Close(segs[k - n - 3])
    {
      assert events[k] == back[k - n - 1] == closes[k - n - 3];
    }
    assert events[n + 1] == back[0] && events[n + 2] == back[1] && events[2 * n + 3] == back[n + 2];
  }

  /** A successful run has the shape `RunShape` describes, over the timeline
      of all the excerpts and its concatenation. */
  lemma AssembleEventOrder(lib: Library, clips: seq<Path>, request: AssemblyRequest)
    requires Assemble(lib, clips, request).result.Ok?
    ensures Readable(lib, clips)
    ensures var segs := Timeline(lib, clips, request.silenceDuration, request.audioOnly);
            RunShape(Assemble(lib, clips, request).events, Parent(request.outputPath), segs,
                     FinalClip(segs, request.audioOnly), request.outputPath, request.audioOnly)
  {
    AssembleOk(lib, clips, request);
    var segs := Timeline(lib, clips, request.silenceDuration, request.audioOnly);
    var final := FinalClip(segs, request.audioOnly);
    assert Render(lib, segs, request).events ==
             [Open(final), Write(final, request.outputPath, request.audioOnly)] + Closes(segs) + [Close(final)];
    SuccessShape(Parent(request.outputPath), segs, final, request.outputPath, request.audioOnly);
  }

  /** In any run of this shape, the handle opened at position `k` is closed
      at position `k + n + 2`: the segments and the concatenation are closed
      in the order they were opened, each after the write. */
  lemma OpenedThenClosed(events: seq<Event>, dir: Path, segs: seq<Handle>, final: Handle, target: Path, audio: bool)
    requires RunShape(events, dir, segs, final, target, audio)
    ensures forall k :: 0 <= k < |events| && events[k].Open? ==>
              k + |segs| + 2 < |events| && events[k + |segs| + 2] == Close(events[k].handle)
  {
    var n := |segs|;
    forall k | 0 <= k < |events| && events[k].Open?
      ensures k + n + 2 < |events| && events[k + n + 2] == Close(events[k].handle)
    {
      if 1 <= k <= n {
        assert events[n + 2 + k] == Close(segs[k - 1]);
      } else if k == n + 1 {
        assert events[2 * n + 3] == Close(events[k].handle);
      } else {
        assert false;
      }
    }
  }

  /** After a successful write every handle opened is closed, by position: the
      handle opened at `k` is closed at `k + n + 2`, where `n` is the number
      of segments, so the closes come after the write and in opening order. */
  lemma AssembleClosesEverything(lib: Library, clips: seq<Path>, request: AssemblyRequest)
    requires Assemble(lib, clips, request).result.Ok?
    ensures Readable(lib, clips)
    ensures var events := Assemble(lib, clips, request).events;
            var n := |Timeline(lib, clips, request.silenceDuration, request.audioOnly)|;
            forall k :: 0 <= k < |events| && events[k].Open? ==>
              k + n + 2 < |events| && events[k + n + 2] == Close(events[k].handle)
  {
    AssembleEventOrder(lib, clips, request);
    var segs := Timeline(lib, clips, request.silenceDuration, request.audioOnly);
    OpenedThenClosed(Assemble(lib, clips, request).events, Parent(request.outputPath), segs,
                     FinalClip(segs, request.audioOnly), request.outputPath, request.audioOnly);
  }

  lemma OpensOnly(hs: seq<Handle>)
    ensures forall e :: e in Opens(hs) ==> e.Open? && e.handle in hs
  {
    forall e | e in Opens(hs)
      ensures e.Open? && e.handle in hs
    {
      var i :| 0 <= i < |hs| && Opens(hs)[i] == e;
    }
  }

  lemma ClosesOnly(hs: seq<Handle>)
    ensures forall e :: e in Closes(hs) ==> e.Close?
  {
    forall e | e in Closes(hs)
      ensures e.Close?
    {
      var i :| 0 <= i < |hs| && Closes(hs)[i] == e;
    }
  }

  /** The first loop only opens handles, of segments in the run's mode. */
  lemma LoadedOnlyOpens(lib: Library, clips: seq<Path>, silence: real, audioOnly: bool)
    ensures forall e :: e in Loaded(lib, clips, silence, audioOnly).events ==> e.Open? && InMode(e.handle, audioOnly)
  {
    var k := ReadablePrefix(lib, clips);
    var segs := Timeline(lib, clips[..k], silence, audioOnly);
    TimelineInMode(lib, clips[..k], silence, audioOnly);
    assert Loaded(lib, clips, silence, audioOnly).events == Opens(segs);
    OpensOnly(segs);
  }

  /** `build_blindtest` has no `finally`: when it raises, nothing has been
      written and no handle has been closed, so the segments opened so far
      (and, if the write failed, the concatenation) stay open. */
  lemma AssembleLeaksOnFailure(lib: Library, clips: seq<Path>, request: AssemblyRequest)
    requires Assemble(lib, clips, request).result.Err?
    ensures forall e :: e in Assemble(lib, clips, request).events ==> e.MakeDirs? || e.Open?
  {
    LoadedOnlyOpens(lib, clips, request.silenceDuration, request.audioOnly);
  }

  /** Rendering opens and writes only the concatenation, which belongs to the
      run's mode when the segments do, and otherwise only closes. */
  lemma RenderInMode(lib: Library, segs: seq<Handle>, request: AssemblyRequest)
    requires forall h :: h in segs ==> InMode(h, request.audioOnly)
    ensures forall e :: e in Render(lib, segs, request).events ==>
              (e.Open? ==> InMode(e.handle, request.audioOnly))
              && (e.Write? ==> e.handle == FinalClip(segs, request.audioOnly)
                               && InMode(e.handle, request.audioOnly) && e.audio == request.audioOnly
                               && e.target == request.outputPath)
  {
    ClosesOnly(segs);
  }

  /** The mode picks one path throughout: every handle opened belongs to the
      run's mode, and every write is of the concatenation of the whole
      timeline, to the output path, as audio exactly in audio-only mode. */
  lemma AssembleUsesOneMode(lib: Library, clips: seq<Path>, request: AssemblyRequest)
    ensures forall e :: e in Assemble(lib, clips, request).events ==>
              (e.Open? ==> InMode(e.handle, request.audioOnly))
              && (e.Write? ==> Readable(lib, clips)
                               && e.handle == FinalClip(Timeline(lib, clips, request.silenceDuration, request.audioOnly), request.audioOnly)
                               && InMode(e.handle, request.audioOnly) && e.audio == request.audioOnly
                               && e.target == request.outputPath)
  {
    LoadedOnlyOpens(lib, clips, request.silenceDuration, request.audioOnly);
    var loaded := Loaded(lib, clips, request.silenceDuration, request.audioOnly);
    if loaded.result.Ok? {
      TimelineInMode(lib, clips, request.silenceDuration, request.audioOnly);
      RenderInMode(lib, loaded.result.value, request);
    }
  }

  /** The first loop of `build_blindtest`: open each excerpt in order and add
      it, followed by its silent segment when the silence duration is
      non-zero; raise on the first excerpt that cannot be decoded. */
  method LoadTimeline(engine: Engine, clips: seq<Path>, silence: real, audioOnly: bool)
    returns (r: Result<seq<Handle>>)
    modifies engine
    ensures engine.log == old(engine.log) + Loaded(engine.lib, clips, silence, audioOnly).events
    ensures r == Loaded(engine.lib, clips, silence, audioOnly).result
  {
    var assembled: seq<Handle> := [];
    var i := 0;
    while i < |clips|
      invariant 0 <= i <= |clips| && Readable(engine.lib, clips[..i])
      invariant assembled == Timeline(engine.lib, clips[..i], silence, audioOnly)
      invariant engine.log == old(engine.log) + Opens(assembled)
    {
      var loaded := engine.Load(clips[i], audioOnly);
      if loaded.Err? {
        ReadablePrefixIs(engine.lib, clips, i);
        return Err(loaded.error);
      }
      TimelineStep(engine.lib, clips, i, silence, audioOnly);
      var media := loaded.value;
      OpenedOneMore(old(engine.log), assembled, media);
      var grown := assembled + [media];
      if silence != 0.0 {
        var gap: Handle;
        if audioOnly {
          gap := engine.Silence(silence);
        } else {
          gap := engine.Blank(engine.lib.files[clips[i]].size, silence);
        }
        OpenedOneMore(old(engine.log), grown, gap);
        AppendAssoc(assembled, [media], [gap]);
        grown := grown + [gap];
      }
      assert grown == assembled + Segments(engine.lib, clips[i], silence, audioOnly);
      assembled := grown;
      i := i + 1;
    }
    ReadablePrefixIs(engine.lib, clips, i);
    r := Ok(assembled);
  }

  /** One more decodable excerpt extends the timeline by its segments. */
  lemma TimelineStep(lib: Library, clips: seq<Path>, i: nat, silence: real, audioOnly: bool)
    requires i < |clips| && Readable(lib, clips[..i]) && clips[i] in lib.files
    ensures Readable(lib, clips[..i + 1])
    ensures Timeline(lib, clips[..i + 1], silence, audioOnly)
            == Timeline(lib, clips[..i], silence, audioOnly) + Segments(lib, clips[i], silence, audioOnly)
  {
    assert clips[..i + 1][..i] == clips[..i];
    assert forall k :: 0 <= k < i ==> clips[..i + 1][k] == clips[..i][k];
  }

  /** `for clip in assembled_clips: clip.close()`. */
  method CloseAll(engine: Engine, handles: seq<Handle>)
    modifies engine
    ensures engine.log == old(engine.log) + Closes(handles)
  {
    var i := 0;
    while i < |handles|
      invariant 0 <= i <= |handles|
      invariant engine.log == old(engine.log) + Closes(handles[..i])
    {
      engine.Close(handles[i]);
      ClosedOneMore(old(engine.log), handles[..i], handles[i]);
      assert handles[..i + 1] == handles[..i] + [handles[i]];
      i := i + 1;
    }
    assert handles[..i] == handles;
  }

  /** Concatenate the segments, write the result, close everything. */
  method RenderFile(engine: Engine, segs: seq<Handle>, request: AssemblyRequest) returns (r: Result<Path>)
    modifies engine
    ensures engine.log == old(engine.log) + Render(engine.lib, segs, request).events
    ensures r == Render(engine.lib, segs, request).result
  {
    var final: Handle;
    if request.audioOnly {
      final := engine.ConcatenateAudio(segs);
    } else {
      final := engine.ConcatenateVideo(segs, "compose");
    }
    var written := engine.WriteFile(final, request.outputPath, request.audioOnly);
    if written.Err? {
      return Err(written.error);
    }
    CloseAll(engine, segs);
    engine.Close(final);
    r := Ok(request.outputPath);
  }

  /** `build_blindtest` after its checks. */
  method ProduceFile(engine: Engine, clips: seq<Path>, request: AssemblyRequest) returns (r: Result<Path>)
    modifies engine
    ensures engine.log == old(engine.log) + Produce(engine.lib, clips, request).events
    ensures r == Produce(engine.lib, clips, request).result
  {
    var setup := [MakeDirs(Parent(request.outputPath))];
    engine.MakeDirs(Parent(request.outputPath));
    var assembled := LoadTimeline(engine, clips, request.silenceDuration, request.audioOnly);
    ghost var loaded := Loaded(engine.lib, clips, request.silenceDuration, request.audioOnly);
    AppendAssoc(old(engine.log), setup, loaded.events);
    if assembled.Err? {
      return Err(assembled.error);
    }
    r := RenderFile(engine, assembled.value, request);
    AppendAssoc(old(engine.log), setup + loaded.events, Render(engine.lib, assembled.value, request).events);
  }

  /** `build_blindtest`: its media calls are those of `Assemble`, and it
      returns or raises what `Assemble` does. */
  method BuildBlindtest(engine: Engine, clips: seq<Path>, request: AssemblyRequest) returns (r: Result<Path>)
    modifies engine
    ensures engine.log == old(engine.log) + Assemble(engine.lib, clips, request).events
    ensures r == Assemble(engine.lib, clips, request).result
  {
    if |clips| == 0 {
      return Err(AssemblyError(NoClips));
    }
    if request.silenceDuration < 0.0 {
      return Err(AssemblyError(NegativeSilence));
    }
    if !engine.lib.installed {
      return Err(AssemblyError(AssemblerMoviepyMissing));
    }
    r := ProduceFile(engine, clips, request);
  }
}

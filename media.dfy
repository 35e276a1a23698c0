/** The media library (moviepy) as the core sees it: clip handles that are
    opened, derived from one another, written and closed, all recorded in a
    log. What the library can decode and where it can write is fixed up front
    in a `Library` value; decoding and encoding themselves are not modelled. */
module Media {
  import opened Common

  /** Frame size `(width, height)` of a video clip. */
  datatype Size = Size(width: int, height: int)

  /** What the decoder reports for a file it can open: `clip.duration`
      (`None` when unknown) and `clip.size`. */
  datatype Probe = Probe(duration: Option<real>, size: Size)

  /** The library's environment: whether it is importable, the files it can
      decode, and the targets whose write raises. */
  datatype Library = Library(installed: bool, files: map<Path, Probe>, unwritable: set<Path>)

  /** A clip handle, identified by how it was obtained. */
  datatype Handle =
    | FileClip(path: Path, audio: bool)               // AudioFileClip (audio) or VideoFileClip
    | SubClip(source: Handle, start: real, end: real) // clip.subclip(start, end)
    | SilentAudio(duration: real)                     // AudioClip(lambda t: 0, duration)
    | BlankVideo(size: Size, duration: real)          // ColorClip(size, black, duration) with silent audio
    | AudioConcat(parts: seq<Handle>)                 // concatenate_audioclips(parts)
    | VideoConcat(parts: seq<Handle>, how: string)    // concatenate_videoclips(parts, method=how)

  /** One observable effect on the file system or on the handles. */
  datatype Event =
    | MakeDirs(dir: Path)                          // mkdir(parents=True, exist_ok=True)
    | Open(handle: Handle)                         // a handle comes into existence
    | Write(handle: Handle, target: Path, audio: bool) // write_audiofile (audio) or write_videofile completed
    | Close(handle: Handle)

  /** The effects of a core operation and what it returns or raises. */
  datatype Outcome<T> = Outcome(events: seq<Event>, result: Result<T>)

  /** The events of opening the handles `hs`, in order. */
  function Opens(hs: seq<Handle>): (es: seq<Event>)
    ensures |es| == |hs|
  {
    seq(|hs|, i requires 0 <= i < |hs| => Open(hs[i]))
  }

  /** The events of closing the handles `hs`, in order. */
  function Closes(hs: seq<Handle>): (es: seq<Event>)
    ensures |es| == |hs|
  {
    seq(|hs|, i requires 0 <= i < |hs| => Close(hs[i]))
  }

  lemma OpensAppend(a: seq<Handle>, b: seq<Handle>)
    ensures Opens(a + b) == Opens(a) + Opens(b)
  {
    assert forall i :: 0 <= i < |a + b| ==> Opens(a + b)[i] == (Opens(a) + Opens(b))[i];
  }

  lemma ClosesAppend(a: seq<Handle>, b: seq<Handle>)
    ensures Closes(a + b) == Closes(a) + Closes(b)
  {
    assert forall i :: 0 <= i < |a + b| ==> Closes(a + b)[i] == (Closes(a) + Closes(b))[i];
  }

  /** Logging one more opening after those of `hs`. */
  lemma OpenedOneMore(log: seq<Event>, hs: seq<Handle>, h: Handle)
    ensures log + Opens(hs) + [Open(h)] == log + Opens(hs + [h])
  {
    OpensAppend(hs, [h]);
    AppendAssoc(log, Opens(hs), Opens([h]));
  }

  /** Logging one more closing after those of `hs`. */
  lemma ClosedOneMore(log: seq<Event>, hs: seq<Handle>, h: Handle)
    ensures log + Closes(hs) + [Close(h)] == log + Closes(hs + [h])
  {
    ClosesAppend(hs, [h]);
    AppendAssoc(log, Closes(hs), Closes([h]));
  }

  /** The media library, recording every call that has an effect. */
  class Engine {
    const lib: Library
    var log: seq<Event>

    constructor (lib: Library)
      ensures this.lib == lib && log == []
    {
      this.lib := lib;
      log := [];
    }

    method MakeDirs(dir: Path)
      modifies this
      ensures log == old(log) + [Event.MakeDirs(dir)]
    {
      log := log + [Event.MakeDirs(dir)];
    }

    /** `AudioFileClip(path)` or `VideoFileClip(path)`; raises when the file cannot be decoded. */
    method Load(path: Path, audio: bool) returns (r: Result<Handle>)
      modifies this
      ensures path in lib.files ==> r == Ok(FileClip(path, audio)) && log == old(log) + [Open(FileClip(path, audio))]
      ensures path !in lib.files ==> r == Err(MediaFailure(path)) && log == old(log)
    {
      if path in lib.files {
        r := Ok(FileClip(path, audio));
        log := log + [Open(r.value)];
      } else {
        r := Err(MediaFailure(path));
      }
    }

    method Subclip(source: Handle, start: real, end: real) returns (h: Handle)
      modifies this
      ensures h == SubClip(source, start, end) && log == old(log) + [Open(h)]
    {
      h := SubClip(source, start, end);
      log := log + [Open(h)];
    }

    method Silence(duration: real) returns (h: Handle)
      modifies this
      ensures h == SilentAudio(duration) && log == old(log) + [Open(h)]
    {
      h := SilentAudio(duration);
      log := log + [Open(h)];
    }

    /** `ColorClip(size, (0, 0, 0), duration).set_audio(AudioClip(lambda t: 0, duration))`. */
    method Blank(size: Size, duration: real) returns (h: Handle)
      modifies this
      ensures h == BlankVideo(size, duration) && log == old(log) + [Open(h)]
    {
      h := BlankVideo(size, duration);
      log := log + [Open(h)];
    }

    method ConcatenateAudio(parts: seq<Handle>) returns (h: Handle)
      modifies this
      ensures h == AudioConcat(parts) && log == old(log) + [Open(h)]
    {
      h := AudioConcat(parts);
      log := log + [Open(h)];
    }

    method ConcatenateVideo(parts: seq<Handle>, how: string) returns (h: Handle)
      modifies this
      ensures h == VideoConcat(parts, how) && log == old(log) + [Open(h)]
    {
      h := VideoConcat(parts, how);
      log := log + [Open(h)];
    }

    /** `write_audiofile(target)` (`audio`) or `write_videofile(target, audio=True)`;
        raises when the target cannot be written, leaving no completed file. */
    method WriteFile(h: Handle, target: Path, audio: bool) returns (r: Result<()>)
      modifies this
      ensures target !in lib.unwritable ==> r == Ok(()) && log == old(log) + [Write(h, target, audio)]
      ensures target in lib.unwritable ==> r == Err(MediaFailure(target)) && log == old(log)
    {
      if target in lib.unwritable {
        r := Err(MediaFailure(target));
      } else {
        r := Ok(());
        log := log + [Write(h, target, audio)];
      }
    }

    method Close(h: Handle)
      modifies this
      ensures log == old(log) + [Event.Close(h)]
    {
      log := log + [Event.Close(h)];
    }
  }
}

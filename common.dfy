/** Vocabulary shared by the three stages of the blind-test pipeline:
    optional values, results carrying the source's exception kinds, and the
    small part of `pathlib` the stages use (joining, parent, suffix change). */
module Common {

  datatype Option<+T> = None | Some(value: T) {
    function GetOr(default: T): T {
      match this
      case Some(v) => v
      case None => default
    }
  }

  /** Python truthiness of an optional string: present and non-empty. */
  predicate Truthy(s: Option<string>) {
    s.Some? && s.value != ""
  }

  /** Why `clip_videos` raised `ClipGenerationError`. */
  datatype ClipProblem = NonPositiveDuration | ClipperMoviepyMissing

  /** Why `build_blindtest` raised `AssemblyError`. */
  datatype AssemblyProblem = NoClips | NegativeSilence | AssemblerMoviepyMissing

  /** Why `fetch_video_clips` (or the downloader / API call it uses) raised `VideoRetrievalError`. */
  datatype RetrievalProblem =
    | MissingApiKey
    | SearchFailed(status: int)
    | NoVideos
    | DownloadFailed(videoId: string)

  /** The exceptions that leave the core. `MediaFailure` stands for whatever the
      media library raises when it cannot decode a file or write a target;
      `KeyError` for a search item without an `id` object. */
  datatype Error =
    | ClipGenerationError(clipProblem: ClipProblem)
    | AssemblyError(assemblyProblem: AssemblyProblem)
    | VideoRetrievalError(retrievalProblem: RetrievalProblem)
    | MediaFailure(path: Path)
    | KeyError(key: string)

  datatype Result<+T> = Ok(value: T) | Err(error: Error)

  lemma AppendAssoc<T>(a: seq<T>, b: seq<T>, c: seq<T>)
    ensures a + (b + c) == a + b + c
  {
  }

  /** A POSIX path, as the string `str(path)` gives. */
  type Path = string

  /** Index of the last occurrence of `c` in `s` (`str.rfind`). */
  function LastIndex(s: string, c: char): (r: Option<nat>)
    ensures r.Some? ==> r.value < |s| && s[r.value] == c
    ensures r.Some? ==> forall k :: r.value < k < |s| ==> s[k] != c
    ensures r.None? ==> forall k :: 0 <= k < |s| ==> s[k] != c
  {
    if s == [] then None
    else if s[|s| - 1] == c then Some(|s| - 1)
    else LastIndex(s[..|s| - 1], c)
  }

  /** `rfind` finds the separator placed before a tail that does not contain it. */
  lemma {:induction false} LastIndexBeforeTail(head: string, c: char, tail: string)
    requires c !in tail
    ensures LastIndex(head + [c] + tail, c) == Some(|head|)
  {
    var s := head + [c] + tail;
    if tail == [] {
      assert s[|s| - 1] == c;
    } else {
      var t := tail[..|tail| - 1];
      assert s[|s| - 1] == tail[|tail| - 1];
      assert s[..|s| - 1] == head + [c] + t;
      LastIndexBeforeTail(head, c, t);
    }
  }

  /** `Path(dir) / name` for a single-component `name`: an empty or "."
      directory is dropped, and no separator is doubled. */
  function Join(dir: Path, name: string): (path: Path)
    ensures |path| >= |name| && path[|path| - |name|..] == name
  {
    if dir == "" || dir == "." then name
    else if dir[|dir| - 1] == '/' then dir + name
    else dir + "/" + name
  }

  /** A named directory is kept as the prefix of the joined path, and a
      separator stands right before the name. */
  lemma JoinKeepsDirectory(dir: Path, name: string)
    requires dir != "" && dir != "."
    ensures |Join(dir, name)| >= |dir| && Join(dir, name)[..|dir|] == dir
    ensures |Join(dir, name)| > |name| && Join(dir, name)[|Join(dir, name)| - |name| - 1] == '/'
  {
    if dir[|dir| - 1] != '/' {
      assert Join(dir, name) == dir + "/" + name;
    }
  }

  /** `Path(p).parent` for a path without trailing or doubled separators. */
  function Parent(p: Path): (parent: Path)
    ensures (forall k :: 0 <= k < |p| ==> p[k] != '/') ==> parent == "."
    ensures parent != "." && parent != "/" ==>
              |parent| < |p| && parent == p[..|parent|] && p[|parent|] == '/'
              && forall k :: |parent| < k < |p| ==> p[k] != '/'
    ensures forall i :: 0 <= i < |p| && p[i] == '/' && (forall k :: i < k < |p| ==> p[k] != '/') ==>
              parent == if i == 0 then "/" else p[..i]
  {
    match LastIndex(p, '/')
    case None => "."
    case Some(i) => if i == 0 then "/" else p[..i]
  }

  /** Joining a name to a directory and taking the parent gives the directory back. */
  lemma ParentOfJoin(dir: Path, name: string)
    requires dir != "" && dir != "." && dir[|dir| - 1] != '/'
    requires '/' !in name
    ensures Parent(Join(dir, name)) == dir
  {
    LastIndexBeforeTail(dir, '/', name);
    assert (dir + "/" + name)[..|dir|] == dir;
  }

  /** The suffix of a file name as `PurePath.suffix` defines it: the part from
      the last dot, when that dot is neither the first nor the last character. */
  function SuffixStart(name: string): (r: Option<nat>)
    ensures r.Some? ==> 0 < r.value < |name| - 1 && name[r.value] == '.'
  {
    match LastIndex(name, '.')
    case Some(i) => if 0 < i < |name| - 1 then Some(i) else None
    case None => None
  }

  /** `PurePath.with_suffix` on a non-empty file name: the old suffix, if any,
      is replaced by `suffix`; otherwise `suffix` is appended. */
  function WithSuffix(name: string, suffix: string): (renamed: string)
    requires name != ""
    ensures |renamed| > |suffix| && renamed[|renamed| - |suffix|..] == suffix
    ensures var stem := renamed[..|renamed| - |suffix|];
            |stem| <= |name| && stem == name[..|stem|]
            && (|stem| < |name| ==> 0 < |stem| < |name| - 1 && name[|stem|] == '.'
                                    && forall k :: |stem| < k < |name| ==> name[k] != '.')
  {
    match SuffixStart(name)
    case Some(i) => name[..i] + suffix
    case None => name + suffix
  }

  /** Replacing the suffix of `stem + "." + ext` keeps the stem, for a
      non-empty stem and an extension with no dot. */
  lemma ReplaceSuffix(stem: string, ext: string, suffix: string)
    requires stem != "" && ext != "" && '.' !in ext
    ensures WithSuffix(stem + "." + ext, suffix) == stem + suffix
  {
    LastIndexBeforeTail(stem, '.', ext);
    assert (stem + "." + ext)[..|stem|] == stem;
  }
}

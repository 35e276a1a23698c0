/** The source provider: search the YouTube Data API for a query, keep the
    items that name a video, download each one and return them in API order
    or shuffled. The HTTP call and the downloader are a `YouTube` object whose
    answers are fixed up front and whose calls are logged. */
module VideoSources {
  import opened Common

  /** A downloaded video (`VideoClip` dataclass). */
  datatype VideoClip = VideoClip(videoId: string, title: string, url: string, filePath: Path)

  /** A query-string value: the API parameters are strings except `maxResults`. */
  datatype Param = Text(text: string) | Number(number: int)

  /** The `id` object of a search item; `videoId` is absent for channels and playlists. */
  datatype ResourceId = ResourceId(videoId: Option<string>)

  /** One entry of the `items` list: its `id` object (absent means `item["id"]`
      raises) and `snippet.title` (absent when either the snippet or the title is). */
  datatype SearchItem = SearchItem(id: Option<ResourceId>, title: Option<string>)

  /** An HTTP status the search call treats as a failure: anything but 200. */
  type FailureStatus = status: int | status != 200 witness 404

  /** What the search endpoint answers: a non-200 status, or the `items` list
      (an answer without `items` reads as the empty list). */
  datatype Reply = Failed(status: FailureStatus) | Listing(items: seq<SearchItem>)

  /** A call to the network or the clock. */
  datatype Call =
    | Search(params: map<string, Param>)
    | Download(videoId: string, dir: Path)
    | Sleep(seconds: real)

  /** The keyword arguments of `fetch_video_clips`. */
  datatype FetchRequest = FetchRequest(
    query: string,
    maxResults: int,
    apiKey: Option<string>,
    downloadDir: Path,
    publishedAfter: Option<string>,
    randomize: bool)

  /** The calls made and the clips returned (before any shuffle) or the error raised. */
  datatype Fetched = Fetched(calls: seq<Call>, result: Result<seq<VideoClip>>)

  const WatchPrefix: string := "https://www.youtube.com/watch?v="
  const DefaultTitle: string := "Untitled"
  /** Pause after each download, in seconds. */
  const DownloadPause: real := 0.1

  /** The search query parameters (`_build_search_params`). */
  function BuildSearchParams(query: string, apiKey: string, maxResults: int, publishedAfter: Option<string>): (params: map<string, Param>)
    ensures params.Keys == {"part", "q", "maxResults", "type", "key", "videoEmbeddable"}
                           + (if Truthy(publishedAfter) then {"publishedAfter"} else {})
    ensures params["part"] == Text("snippet") && params["q"] == Text(query)
    ensures params["maxResults"] == Number(maxResults) && params["type"] == Text("video")
    ensures params["key"] == Text(apiKey) && params["videoEmbeddable"] == Text("true")
    ensures "publishedAfter" in params <==> Truthy(publishedAfter)
    ensures Truthy(publishedAfter) ==> params["publishedAfter"] == Text(publishedAfter.value)
  {
    var params := map[
      "part" := Text("snippet"),
      "q" := Text(query),
      "maxResults" := Number(maxResults),
      "type" := Text("video"),
      "key" := Text(apiKey),
      "videoEmbeddable" := Text("true")];
    if Truthy(publishedAfter) then params["publishedAfter" := Text(publishedAfter.value)] else params
  }

  /** `api_key or os.getenv("YOUTUBE_API_KEY")`. */
  function ResolveApiKey(apiKey: Option<string>, fromEnvironment: Option<string>): (key: Option<string>)
    ensures Truthy(key) <==> Truthy(apiKey) || Truthy(fromEnvironment)
    ensures Truthy(apiKey) ==> key == apiKey
    ensures !Truthy(apiKey) ==> key == fromEnvironment
  {
    if Truthy(apiKey) then apiKey else fromEnvironment
  }

  /** The watch page of a video; the id can be read back after the fixed prefix. */
  function WatchUrl(videoId: string): (url: string)
    ensures |url| == |WatchPrefix| + |videoId|
    ensures url[..|WatchPrefix|] == WatchPrefix && url[|WatchPrefix|..] == videoId
  {
    WatchPrefix + videoId
  }

  /** An item the loop keeps: it has an `id` object naming a non-empty `videoId`. */
  predicate Listed(item: SearchItem) {
    item.id.Some? && Truthy(item.id.value.videoId)
  }

  function ClipFor(item: SearchItem, dir: Path): VideoClip
    requires Listed(item)
  {
    var videoId := item.id.value.videoId.value;
    VideoClip(videoId, item.title.GetOr(DefaultTitle), WatchUrl(videoId), Join(dir, videoId + ".mp4"))
  }

  /** Reference definition of the returned clips: the listed items, in API order. */
  function Kept(items: seq<SearchItem>, dir: Path): (clips: seq<VideoClip>)
    ensures |clips| <= |items|
  {
    if items == [] then []
    else (if Listed(items[0]) then [ClipFor(items[0], dir)] else []) + Kept(items[1..], dir)
  }

  /** The download and pause calls made for the given clips, in order. */
  function DownloadCalls(clips: seq<VideoClip>, dir: Path): (calls: seq<Call>)
    ensures |calls| == 2 * |clips|
  {
    if clips == [] then []
    else DownloadCalls(clips[..|clips| - 1], dir) + [Download(clips[|clips| - 1].videoId, dir), Sleep(DownloadPause)]
  }

  /** Every item can be processed: it has an `id` object, and the video it
      names, if any, can be downloaded. */
  predicate Fetchable(items: seq<SearchItem>, unavailable: set<string>) {
    forall i :: 0 <= i < |items| ==>
      items[i].id.Some? && (Listed(items[i]) ==> items[i].id.value.videoId.value !in unavailable)
  }

  /** The loop over `items` in `fetch_video_clips`, run on the first `|items|`
      items: the calls it makes and the clips it collects or the error it raises. */
  function Gather(items: seq<SearchItem>, dir: Path, unavailable: set<string>): (g: Fetched)
    ensures |g.calls| <= 2 * |items|
    ensures g.result.Ok? ==> |g.result.value| <= |items| && g.calls == DownloadCalls(g.result.value, dir)
    decreases |items|
  {
    if items == [] then Fetched([], Ok([]))
    else
      var before := Gather(items[..|items| - 1], dir, unavailable);
      var item := items[|items| - 1];
      if before.result.Err? then before
      else if item.id.None? then Fetched(before.calls, Err(KeyError("id")))
      else if !Truthy(item.id.value.videoId) then before
      else
        var videoId := item.id.value.videoId.value;
        var calls := before.calls + [Download(videoId, dir)];
        if videoId in unavailable then Fetched(calls, Err(VideoRetrievalError(DownloadFailed(videoId))))
        else
          var kept := before.result.value + [ClipFor(item, dir)];
          assert kept[..|kept| - 1] == before.result.value;
          Fetched(calls + [Sleep(DownloadPause)], Ok(kept))
  }

  /** Once the loop has raised, later items change nothing. */
  lemma {:induction false} GatherStopsAtError(items: seq<SearchItem>, k: nat, dir: Path, unavailable: set<string>)
    requires k <= |items|
    requires Gather(items[..k], dir, unavailable).result.Err?
    ensures Gather(items, dir, unavailable) == Gather(items[..k], dir, unavailable)
    decreases |items| - k
  {
    if k < |items| {
      var next := items[..k + 1];
      assert next[..k] == items[..k];
      assert Gather(next, dir, unavailable) == Gather(items[..k], dir, unavailable);
      GatherStopsAtError(items, k + 1, dir, unavailable);
    } else {
      assert items[..k] == items;
    }
  }

  lemma {:induction false} KeptAppend(items: seq<SearchItem>, item: SearchItem, dir: Path)
    ensures Kept(items + [item], dir) == Kept(items, dir) + (if Listed(item) then [ClipFor(item, dir)] else [])
  {
    var last := if Listed(item) then [ClipFor(item, dir)] else [];
    if items == [] {
      assert Kept([item], dir) == last + Kept([], dir);
    } else {
      var first := if Listed(items[0]) then [ClipFor(items[0], dir)] else [];
      var all := items + [item];
      assert all[0] == items[0] && all[1..] == items[1..] + [item];
      assert Kept(all, dir) == first + Kept(items[1..] + [item], dir);
      KeptAppend(items[1..], item, dir);
      AppendAssoc(first, Kept(items[1..], dir), last);
    }
  }

  /** The loop succeeds exactly when every item can be processed, and then it
      returns the listed items in API order, having downloaded each of them
      (and paused after each) in that order. */
  lemma {:induction false} GatherMatchesKept(items: seq<SearchItem>, dir: Path, unavailable: set<string>)
    ensures Gather(items, dir, unavailable).result.Ok? <==> Fetchable(items, unavailable)
    ensures Gather(items, dir, unavailable).result.Ok? ==>
              Gather(items, dir, unavailable).result.value == Kept(items, dir)
              && Gather(items, dir, unavailable).calls == DownloadCalls(Kept(items, dir), dir)
    decreases |items|
  {
    if items != [] {
      var prefix := items[..|items| - 1];
      var item := items[|items| - 1];
      assert items == prefix + [item];
      GatherMatchesKept(prefix, dir, unavailable);
      KeptAppend(prefix, item, dir);
      assert Fetchable(items, unavailable) <==>
        Fetchable(prefix, unavailable) && item.id.Some? && (Listed(item) ==> item.id.value.videoId.value !in unavailable)
      by {
        if Fetchable(prefix, unavailable) && item.id.Some? && (Listed(item) ==> item.id.value.videoId.value !in unavailable) {
          forall i | 0 <= i < |items|
            ensures items[i].id.Some? && (Listed(items[i]) ==> items[i].id.value.videoId.value !in unavailable)
          {
            if i < |prefix| { assert items[i] == prefix[i]; }
          }
        }
        if Fetchable(items, unavailable) {
          forall i | 0 <= i < |prefix|
            ensures prefix[i].id.Some? && (Listed(prefix[i]) ==> prefix[i].id.value.videoId.value !in unavailable)
          {
            assert prefix[i] == items[i];
          }
        }
      }
      if Listed(item) && Gather(prefix, dir, unavailable).result.Ok? {
        var kept := Kept(prefix, dir) + [ClipFor(item, dir)];
        assert kept[..|kept| - 1] == Kept(prefix, dir);
      }
    }
  }

  /** Every returned clip names a non-empty video id, its watch page and its
      downloaded file `<id>.mp4` in the download directory. */
  lemma {:induction false} KeptClipsWellFormed(items: seq<SearchItem>, dir: Path)
    ensures forall c :: c in Kept(items, dir) ==>
              c.videoId != "" && c.url == WatchUrl(c.videoId) && c.filePath == Join(dir, c.videoId + ".mp4")
  {
    if items != [] {
      KeptClipsWellFormed(items[1..], dir);
    }
  }

  /** Every returned clip comes from an item that names a video: it carries
      that item's video id, and its title, or "Untitled" when it has none. */
  lemma {:induction false} KeptComesFromItems(items: seq<SearchItem>, dir: Path)
    ensures forall c :: c in Kept(items, dir) ==>
              exists i :: 0 <= i < |items| && Listed(items[i])
                          && c.videoId == items[i].id.value.videoId.value
                          && c.title == items[i].title.GetOr(DefaultTitle)
  {
    if items != [] {
      KeptComesFromItems(items[1..], dir);
      forall c | c in Kept(items, dir)
        ensures exists i :: 0 <= i < |items| && Listed(items[i])
                            && c.videoId == items[i].id.value.videoId.value
                            && c.title == items[i].title.GetOr(DefaultTitle)
      {
        if c !in Kept(items[1..], dir) {
          assert Listed(items[0]) && c == ClipFor(items[0], dir);
        } else {
          var i :| 0 <= i < |items[1..]| && Listed(items[1..][i])
                   && c.videoId == items[1..][i].id.value.videoId.value
                   && c.title == items[1..][i].title.GetOr(DefaultTitle);
          assert items[1..][i] == items[i + 1];
        }
      }
    }
  }

  /** Items none of which names a video yield no clips (and no error). */
  lemma {:induction false} NothingListedKeepsNothing(items: seq<SearchItem>, dir: Path)
    requires forall i :: 0 <= i < |items| ==> !Listed(items[i])
    ensures Kept(items, dir) == []
  {
    if items != [] {
      NothingListedKeepsNothing(items[1..], dir);
    }
  }

  /** `fetch_video_clips` up to (not including) the shuffle. */
  function Fetch(reply: Reply, unavailable: set<string>, request: FetchRequest, fromEnvironment: Option<string>): (f: Fetched)
    ensures !Truthy(ResolveApiKey(request.apiKey, fromEnvironment)) ==>
              f == Fetched([], Err(VideoRetrievalError(MissingApiKey)))
    ensures Truthy(ResolveApiKey(request.apiKey, fromEnvironment)) ==>
              |f.calls| >= 1 && f.calls[0] ==
                Search(BuildSearchParams(request.query, ResolveApiKey(request.apiKey, fromEnvironment).value,
                                         request.maxResults, request.publishedAfter))
    ensures reply == Listing([]) && Truthy(ResolveApiKey(request.apiKey, fromEnvironment)) ==>
              f.result == Err(VideoRetrievalError(NoVideos))
  {
    var key := ResolveApiKey(request.apiKey, fromEnvironment);
    if !Truthy(key) then Fetched([], Err(VideoRetrievalError(MissingApiKey)))
    else
      var search := [Search(BuildSearchParams(request.query, key.value, request.maxResults, request.publishedAfter))];
      match reply
      case Failed(status) => Fetched(search, Err(VideoRetrievalError(SearchFailed(status))))
      case Listing(items) =>
        if items == [] then Fetched(search, Err(VideoRetrievalError(NoVideos)))
        else
          var g := Gather(items, request.downloadDir, unavailable);
          Fetched(search + g.calls, g.result)
  }

  /** A fetch succeeds exactly when a key is available, the API answers with
      items and each item can be processed; it then returns the listed items
      in API order. */
  lemma FetchReturnsListedItems(reply: Reply, unavailable: set<string>, request: FetchRequest, fromEnvironment: Option<string>)
    ensures Fetch(reply, unavailable, request, fromEnvironment).result.Ok? <==>
              Truthy(ResolveApiKey(request.apiKey, fromEnvironment)) && reply.Listing? && reply.items != []
              && Fetchable(reply.items, unavailable)
    ensures Fetch(reply, unavailable, request, fromEnvironment).result.Ok? ==>
              Fetch(reply, unavailable, request, fromEnvironment).result.value == Kept(reply.items, request.downloadDir)
  {
    if reply.Listing? {
      GatherMatchesKept(reply.items, request.downloadDir, unavailable);
    }
  }

  /** Items are present but none names a video: the result is empty, not an error. */
  lemma NoVideoIdsIsEmptyResult(items: seq<SearchItem>, unavailable: set<string>, request: FetchRequest, fromEnvironment: Option<string>)
    requires Truthy(ResolveApiKey(request.apiKey, fromEnvironment))
    requires items != []
    requires forall i :: 0 <= i < |items| ==> items[i].id.Some? && !Truthy(items[i].id.value.videoId)
    ensures Fetch(Listing(items), unavailable, request, fromEnvironment).result == Ok([])
  {
    GatherMatchesKept(items, request.downloadDir, unavailable);
    NothingListedKeepsNothing(items, request.downloadDir);
  }

  /** The network: the search endpoint and the downloader, answering as
      configured and logging each call. */
  class YouTube {
    const reply: Reply
    const unavailable: set<string>
    var log: seq<Call>

    constructor (reply: Reply, unavailable: set<string>)
      ensures this.reply == reply && this.unavailable == unavailable && log == []
    {
      this.reply := reply;
      this.unavailable := unavailable;
      log := [];
    }

    /** `_call_youtube_api`: a non-200 status raises. */
    method CallApi(params: map<string, Param>) returns (r: Result<seq<SearchItem>>)
      modifies this
      ensures log == old(log) + [Search(params)]
      ensures reply.Failed? ==> r == Err(VideoRetrievalError(SearchFailed(reply.status)))
      ensures reply.Listing? ==> r == Ok(reply.items)
    {
      log := log + [Search(params)];
      match reply
      case Failed(status) => r := Err(VideoRetrievalError(SearchFailed(status)));
      case Listing(items) => r := Ok(items);
    }

    /** `_download_video`: stores `<id>.mp4` in `dir`, or raises for a video it cannot fetch. */
    method DownloadVideo(videoId: string, dir: Path) returns (r: Result<Path>)
      modifies this
      ensures log == old(log) + [Download(videoId, dir)]
      ensures videoId in unavailable ==> r == Err(VideoRetrievalError(DownloadFailed(videoId)))
      ensures videoId !in unavailable ==> r == Ok(Join(dir, videoId + ".mp4"))
    {
      log := log + [Download(videoId, dir)];
      if videoId in unavailable {
        r := Err(VideoRetrievalError(DownloadFailed(videoId)));
      } else {
        r := Ok(Join(dir, videoId + ".mp4"));
      }
    }

    method Sleep(seconds: real)
      modifies this
      ensures log == old(log) + [Call.Sleep(seconds)]
    {
      log := log + [Call.Sleep(seconds)];
    }
  }

  /** `random.shuffle`: Fisher-Yates from the back, where `draw(i) % (i + 1)`
      plays `randbelow(i + 1)`. The result is a permutation of the input. */
  method Shuffle<T>(a: array<T>, draw: nat -> nat)
    modifies a
    ensures multiset(a[..]) == old(multiset(a[..]))
  {
    var i := a.Length;
    while i > 1
      invariant 0 <= i <= a.Length
      invariant multiset(a[..]) == old(multiset(a[..]))
    {
      i := i - 1;
      var j := draw(i) % (i + 1);
      a[i], a[j] := a[j], a[i];
    }
  }

  /** `random.shuffle(clips)` on a list: the same clips, in the order the draws give. */
  method ShuffledCopy<T>(clips: seq<T>, draw: nat -> nat) returns (shuffled: seq<T>)
    ensures |shuffled| == |clips| && multiset(shuffled) == multiset(clips)
  {
    var a := new T[|clips|](k requires 0 <= k < |clips| => clips[k]);
    assert a[..] == clips;
    Shuffle(a, draw);
    shuffled := a[..];
  }

  /** One more item processed by the loop, when the items before it were processed without error. */
  lemma GatherStep(items: seq<SearchItem>, i: nat, dir: Path, unavailable: set<string>)
    requires i < |items|
    requires Gather(items[..i], dir, unavailable).result.Ok?
    ensures var before := Gather(items[..i], dir, unavailable);
            var item := items[i];
            Gather(items[..i + 1], dir, unavailable) ==
              if item.id.None? then Fetched(before.calls, Err(KeyError("id")))
              else if !Truthy(item.id.value.videoId) then before
              else if item.id.value.videoId.value in unavailable then
                Fetched(before.calls + [Download(item.id.value.videoId.value, dir)],
                        Err(VideoRetrievalError(DownloadFailed(item.id.value.videoId.value))))
              else Fetched(before.calls + [Download(item.id.value.videoId.value, dir), Sleep(DownloadPause)],
                           Ok(before.result.value + [ClipFor(item, dir)]))
  {
    assert items[..i + 1][..i] == items[..i];
  }

  /** The loop over `items` of `fetch_video_clips`: download each item that
      names a video and collect it, stopping at the first item that raises. */
  method CollectClips(yt: YouTube, items: seq<SearchItem>, dir: Path) returns (r: Result<seq<VideoClip>>)
    modifies yt
    ensures yt.log == old(yt.log) + Gather(items, dir, yt.unavailable).calls
    ensures r == Gather(items, dir, yt.unavailable).result
  {
    var clips: seq<VideoClip> := [];
    var i := 0;
    while i < |items|
      invariant 0 <= i <= |items|
      invariant yt.log == old(yt.log) + Gather(items[..i], dir, yt.unavailable).calls
      invariant Gather(items[..i], dir, yt.unavailable).result == Ok(clips)
    {
      var item := items[i];
      GatherStep(items, i, dir, yt.unavailable);
      if item.id.None? {
        GatherStopsAtError(items, i + 1, dir, yt.unavailable);
        return Err(KeyError("id"));
      }
      var videoId := item.id.value.videoId;
      if !Truthy(videoId) {
        i := i + 1;
        continue;
      }
      ghost var before := Gather(items[..i], dir, yt.unavailable).calls;
      var title := item.title.GetOr(DefaultTitle);
      var url := WatchUrl(videoId.value);
      var filePath := yt.DownloadVideo(videoId.value, dir);
      if filePath.Err? {
        GatherStopsAtError(items, i + 1, dir, yt.unavailable);
        return Err(filePath.error);
      }
      clips := clips + [VideoClip(videoId.value, title, url, filePath.value)];
      yt.Sleep(DownloadPause);
      AppendAssoc(old(yt.log), before, [Download(videoId.value, dir), Sleep(DownloadPause)]);
      assert yt.log == old(yt.log) + (before + [Download(videoId.value, dir), Sleep(DownloadPause)]);
      i := i + 1;
    }
    assert items[..i] == items;
    r := Ok(clips);
  }

  /** `fetch_video_clips`: the calls it makes are those of `Fetch`; it raises
      what `Fetch` raises, and otherwise returns `Fetch`'s clips, in API order
      or, when `randomize` is set, in some order. */
  method FetchVideoClips(yt: YouTube, request: FetchRequest, fromEnvironment: Option<string>, draw: nat -> nat)
    returns (r: Result<seq<VideoClip>>)
    modifies yt
    ensures yt.log == old(yt.log) + Fetch(yt.reply, yt.unavailable, request, fromEnvironment).calls
    ensures Fetch(yt.reply, yt.unavailable, request, fromEnvironment).result.Err? ==>
              r == Fetch(yt.reply, yt.unavailable, request, fromEnvironment).result
    ensures Fetch(yt.reply, yt.unavailable, request, fromEnvironment).result.Ok? ==> r.Ok?
    ensures r.Ok? && !request.randomize ==> r == Fetch(yt.reply, yt.unavailable, request, fromEnvironment).result
    ensures r.Ok? && request.randomize ==>
              multiset(r.value) == multiset(Fetch(yt.reply, yt.unavailable, request, fromEnvironment).result.value)
  {
    var key := ResolveApiKey(request.apiKey, fromEnvironment);
    if !Truthy(key) {
      return Err(VideoRetrievalError(MissingApiKey));
    }
    var params := BuildSearchParams(request.query, key.value, request.maxResults, request.publishedAfter);
    var answer := yt.CallApi(params);
    if answer.Err? {
      return Err(answer.error);
    }
    var items := answer.value;
    if items == [] {
      return Err(VideoRetrievalError(NoVideos));
    }
    ghost var searched := yt.log;
    r := CollectClips(yt, items, request.downloadDir);
    AppendAssoc(old(yt.log), [Search(params)], Gather(items, request.downloadDir, yt.unavailable).calls);
    assert yt.log == searched + Gather(items, request.downloadDir, yt.unavailable).calls;
    if r.Ok? && request.randomize {
      var shuffled := ShuffledCopy(r.value, draw);
      r := Ok(shuffled);
    }
  }
}

/** `IngestionService` of app/services/ingestion_service.py: the
    fetch-through video cache of `_get_s3_video_link`, the row loop of
    `download_vids`, and the per-row steps `_transcribe_video` and
    `_get_hook`. The storage, scraper, audio and language-model services it
    holds are bound to their contracts in this model: `S3Service` (with the
    download of app/services/client/s3_service.py), `Effects.World.Scrape`,
    `Transcription.Transcribe` and `LlmAgent`. What a remote service does
    for one call is a parameter. */
module Ingestion {
  import opened Wrappers
  import opened Strings
  import opened Effects
  import S3Service
  import AudioPaths
  import Transcription
  import Transcript
  import LlmAgent
  import VisualService
  import Frames
  import JsonData

  /** `self.video_bucket`. */
  const VideoBucket: string := "tapestry-tiktok-videos"

  /** The storage key of a post's video, `f"tiktok_{post_id}.mp4"`. */
  function VideoKey(postId: string): string
  {
    "tiktok_" + postId + ".mp4"
  }

  /** Distinct posts are stored under distinct keys. */
  lemma VideoKeyInjective(a: string, b: string)
    ensures VideoKey(a) == VideoKey(b) <==> a == b
  {
    if VideoKey(a) == VideoKey(b) {
      assert |a| == |b|;
      assert VideoKey(a)[7..7 + |a|] == a;
      assert VideoKey(b)[7..7 + |b|] == b;
    }
  }

  /** The video link of a post, when it is in the bucket. */
  function PostLink(postId: string): string
  {
    S3Service.Location(VideoBucket, VideoKey(postId))
  }

  /** What the remote side does for a post: the code of a `ClientError`
      that `head_object` raises for a key, whether the scraper obtains the
      video of a page URL, and whether the storage service accepts the
      upload of a key. */
  datatype Remote = Remote(refused: string -> Option<string>, fetched: string -> bool, accepted: string -> bool)

  // ------------------------------------------------------ _get_s3_video_link

  /** The outcome of one `_get_s3_video_link`: the result and the objects,
      files and effects after it. */
  datatype LinkStep = LinkStep(result: Result<Option<string>, Exception>, objects: S3Service.Objects,
                               files: set<string>, events: seq<Event>)

  /** `_get_s3_video_link`: a stored key is a cache hit; otherwise the
      scraper saves the video to a temporary file, which is uploaded and
      removed, and the service pauses. A refused `head_object` propagates. */
  function LinkOf(objects: S3Service.Objects, files: set<string>, browserOpen: bool, tempDir: string,
                  url: string, postId: string, remote: Remote): LinkStep
  {
    var key := VideoKey(postId);
    var found := S3Service.ExistsInBucket(objects, VideoBucket, key, remote.refused(key));
    if found.Err? then LinkStep(Err(found.error), objects, files, [])
    else if found.value then LinkStep(Ok(Some(PostLink(postId))), objects, files, [])
    else if !(browserOpen && remote.fetched(url)) then LinkStep(Ok(None), objects, files, [])
    else
      var temp := PathJoin(tempDir, key);
      var upload := S3Service.Upload(objects, files + {temp}, VideoBucket, key, temp, remote.accepted(key));
      LinkStep(Ok(upload.1), upload.0, files + {temp} - {temp},
               [Scraped(url, temp)] + (if upload.1.Some? then [Uploaded(VideoBucket, key)] else []) + [Removed(temp), Slept])
  }

  /** What one call does: a link is the post's location and the object is
      then stored; only that object can be added; no file is left behind
      except one that existed before; a cache hit, a refusal and a failed
      scrape have no effect; an upload is always followed by the removal of
      the temporary file and the pause. */
  lemma LinkOfFacts(objects: S3Service.Objects, files: set<string>, browserOpen: bool, tempDir: string,
                    url: string, postId: string, remote: Remote)
    ensures var s := LinkOf(objects, files, browserOpen, tempDir, url, postId, remote);
      && (s.result.Ok? && s.result.value.Some? ==>
            s.result.value.value == PostLink(postId) && (VideoBucket, VideoKey(postId)) in s.objects)
      && objects <= s.objects <= objects + {(VideoBucket, VideoKey(postId))}
      && s.files <= files
      && (s.result.Err? ==> s.result.error == ClientError(remote.refused(VideoKey(postId)).value) && s.events == [])
      && ((VideoBucket, VideoKey(postId)) in objects && remote.refused(VideoKey(postId)).None? ==>
            s == LinkStep(Ok(Some(PostLink(postId))), objects, files, []))
      && (!browserOpen ==> s.events == [] && s.objects == objects)
      && (s.events != [] ==> s.events[|s.events| - 2..] == [Removed(PathJoin(tempDir, VideoKey(postId))), Slept])
  {
    var s := LinkOf(objects, files, browserOpen, tempDir, url, postId, remote);
    var key := VideoKey(postId);
    var found := S3Service.ExistsInBucket(objects, VideoBucket, key, remote.refused(key));
    if found.Ok? && !found.value && browserOpen && remote.fetched(url) {
      var temp := PathJoin(tempDir, key);
      var upload := S3Service.Upload(objects, files + {temp}, VideoBucket, key, temp, remote.accepted(key));
      if upload.1.Some? {
        assert s.events == [Scraped(url, temp), Uploaded(VideoBucket, key), Removed(temp), Slept];
      } else {
        assert s.events == [Scraped(url, temp), Removed(temp), Slept];
      }
    }
  }

  /** After a call that yields a link, a second call for the same post is a
      cache hit: the same link, whatever page URL, temporary directory or
      browser state, and no effect at all. */
  lemma SecondCallHitsCache(objects: S3Service.Objects, files: set<string>, browserOpen: bool, tempDir: string,
                            url: string, postId: string, remote: Remote,
                            browserOpen2: bool, tempDir2: string, url2: string)
    requires LinkOf(objects, files, browserOpen, tempDir, url, postId, remote).result.Ok?
    requires LinkOf(objects, files, browserOpen, tempDir, url, postId, remote).result.value.Some?
    requires remote.refused(VideoKey(postId)).None?
    ensures var s := LinkOf(objects, files, browserOpen, tempDir, url, postId, remote);
      LinkOf(s.objects, s.files, browserOpen2, tempDir2, url2, postId, remote)
        == LinkStep(s.result, s.objects, s.files, [])
  {
    var s := LinkOf(objects, files, browserOpen, tempDir, url, postId, remote);
    LinkOfFacts(objects, files, browserOpen, tempDir, url, postId, remote);
    LinkOfFacts(s.objects, s.files, browserOpen2, tempDir2, url2, postId, remote);
  }

  /** `_get_s3_video_link`, step by step on the world. */
  method GetS3VideoLink(w: World, tempDir: string, url: string, postId: string, remote: Remote)
    returns (r: Result<Option<string>, Exception>)
    modifies w
    ensures var s := LinkOf(old(w.objects), old(w.files), old(w.browserOpen), tempDir, url, postId, remote);
      && r == s.result && w.objects == s.objects && w.files == s.files && w.trace == old(w.trace) + s.events
    ensures w.browserOpen == old(w.browserOpen)
  {
    var key := VideoKey(postId);
    var found := S3Service.ExistsInBucket(w.objects, VideoBucket, key, remote.refused(key));
    if found.Err? {
      return Err(found.error);
    }
    if found.value {
      return Ok(Some(S3Service.Location(VideoBucket, key)));
    }
    var temp := w.Scrape(url, key, tempDir, remote.fetched(url));
    if temp.None? {
      return Ok(None);
    }
    var link := w.Upload(VideoBucket, key, temp.value, remote.accepted(key));
    var removed := w.Remove(temp.value);
    assert removed.Ok?;
    w.Record(Slept);
    return Ok(link);
  }

  // ----------------------------------------------------------- download_vids

  /** The columns of a post row that ingestion reads and writes. `style` is
      the decoded form of the JSON text `json.dumps` writes. */
  datatype Row = Row(url: string, postId: string, videoLink: Option<string>, fullScript: Option<string>,
                     screenHook: Option<string>, audioHook: Option<string>, style: Option<JsonData.Json>)

  /** The outcome of the first `n` rows of the `download_vids` loop. */
  datatype LinksStep = LinksStep(result: Result<seq<Option<string>>, Exception>, objects: S3Service.Objects,
                                 files: set<string>, events: seq<Event>)

  /** The links of the first `n` rows, fetched in order with the browser
      open; the first exception ends the loop. */
  function Links(objects: S3Service.Objects, files: set<string>, tempDir: string, rows: seq<Row>,
                 remote: Remote, n: nat): LinksStep
    requires n <= |rows|
  {
    if n == 0 then LinksStep(Ok([]), objects, files, [])
    else
      var p := Links(objects, files, tempDir, rows, remote, n - 1);
      if p.result.Err? then p
      else
        var s := LinkOf(p.objects, p.files, true, tempDir, rows[n - 1].url, rows[n - 1].postId, remote);
        LinksStep(if s.result.Err? then Err(s.result.error) else Ok(p.result.value + [s.result.value]),
                  s.objects, s.files, p.events + s.events)
  }

  /** One more row: the links so far grow by that row's link, or its error ends the scan. */
  lemma LinksNext(objects0: S3Service.Objects, files0: set<string>, tempDir: string, rows: seq<Row>,
                  remote: Remote, i: nat, links: seq<Option<string>>, objects: S3Service.Objects,
                  files: set<string>, events: seq<Event>)
    requires i < |rows|
    requires Links(objects0, files0, tempDir, rows, remote, i) == LinksStep(Ok(links), objects, files, events)
    ensures var s := LinkOf(objects, files, true, tempDir, rows[i].url, rows[i].postId, remote);
      Links(objects0, files0, tempDir, rows, remote, i + 1)
        == LinksStep(if s.result.Err? then Err(s.result.error) else Ok(links + [s.result.value]),
                     s.objects, s.files, events + s.events)
  {
  }

  /** Once a row raises, the later rows change nothing. */
  lemma {:induction false} LinksErrStays(objects: S3Service.Objects, files: set<string>, tempDir: string,
                                         rows: seq<Row>, remote: Remote, n: nat, m: nat)
    requires n <= m <= |rows|
    requires Links(objects, files, tempDir, rows, remote, n).result.Err?
    ensures Links(objects, files, tempDir, rows, remote, m) == Links(objects, files, tempDir, rows, remote, n)
  {
    if m > n {
      LinksErrStays(objects, files, tempDir, rows, remote, n, m - 1);
    }
  }

  /** No browser is opened or closed by these effects. */
  predicate NoBrowserEvents(events: seq<Event>)
  {
    forall i :: 0 <= i < |events| ==> !events[i].BrowserOpened? && !events[i].BrowserClosed?
  }

  lemma NoBrowserEventsAppend(a: seq<Event>, b: seq<Event>)
    requires NoBrowserEvents(a) && NoBrowserEvents(b)
    ensures NoBrowserEvents(a + b)
  {
    forall i | 0 <= i < |a + b| ensures !(a + b)[i].BrowserOpened? && !(a + b)[i].BrowserClosed? {
      if i >= |a| {
        assert (a + b)[i] == b[i - |a|];
      }
    }
  }

  /** The facts about one call that the row loop carries: the objects only
      grow, a link is the post's location and is then stored, and the
      browser is left alone. */
  lemma LinkOfKeeps(objects: S3Service.Objects, files: set<string>, browserOpen: bool, tempDir: string,
                    url: string, postId: string, remote: Remote)
    ensures var s := LinkOf(objects, files, browserOpen, tempDir, url, postId, remote);
      && objects <= s.objects
      && NoBrowserEvents(s.events)
      && (s.result.Ok? && s.result.value.Some? ==>
            s.result.value.value == PostLink(postId) && (VideoBucket, VideoKey(postId)) in s.objects)
  {
    LinkOfFacts(objects, files, browserOpen, tempDir, url, postId, remote);
    var s := LinkOf(objects, files, browserOpen, tempDir, url, postId, remote);
    var key := VideoKey(postId);
    var found := S3Service.ExistsInBucket(objects, VideoBucket, key, remote.refused(key));
    if found.Ok? && !found.value && browserOpen && remote.fetched(url) {
      var temp := PathJoin(tempDir, key);
      var upload := S3Service.Upload(objects, files + {temp}, VideoBucket, key, temp, remote.accepted(key));
      if upload.1.Some? {
        assert s.events == [Scraped(url, temp), Uploaded(VideoBucket, key), Removed(temp), Slept];
      } else {
        assert s.events == [Scraped(url, temp), Removed(temp), Slept];
      }
    }
  }

  /** Over the row loop the objects only grow and no browser is opened or
      closed. */
  lemma {:induction false} LinksGrow(objects: S3Service.Objects, files: set<string>, tempDir: string,
                                     rows: seq<Row>, remote: Remote, n: nat)
    requires n <= |rows|
    ensures objects <= Links(objects, files, tempDir, rows, remote, n).objects
    ensures NoBrowserEvents(Links(objects, files, tempDir, rows, remote, n).events)
  {
    if n > 0 {
      LinksGrow(objects, files, tempDir, rows, remote, n - 1);
      var p := Links(objects, files, tempDir, rows, remote, n - 1);
      if p.result.Ok? {
        var row := rows[n - 1];
        var s := LinkOf(p.objects, p.files, true, tempDir, row.url, row.postId, remote);
        LinkOfKeeps(p.objects, p.files, true, tempDir, row.url, row.postId, remote);
        NoBrowserEventsAppend(p.events, s.events);
      }
    }
  }

  /** Every row gets a link or None, and a link is the location of that
      row's post, which is stored when the loop ends. */
  lemma {:induction false} LinksShape(objects: S3Service.Objects, files: set<string>, tempDir: string,
                                      rows: seq<Row>, remote: Remote, n: nat)
    requires n <= |rows|
    ensures var s := Links(objects, files, tempDir, rows, remote, n);
      s.result.Ok? ==> |s.result.value| == n && LinksStored(s.result.value, s.objects, rows)
  {
    if n > 0 {
      LinksShape(objects, files, tempDir, rows, remote, n - 1);
      var p := Links(objects, files, tempDir, rows, remote, n - 1);
      if p.result.Ok? {
        var row := rows[n - 1];
        var l := LinkOf(p.objects, p.files, true, tempDir, row.url, row.postId, remote);
        LinkOfKeeps(p.objects, p.files, true, tempDir, row.url, row.postId, remote);
        LinksNext(objects, files, tempDir, rows, remote, n - 1, p.result.value, p.objects, p.files, p.events);
        var s := Links(objects, files, tempDir, rows, remote, n);
        if l.result.Ok? {
          assert s.result.value == p.result.value + [l.result.value] && s.objects == l.objects;
          LinksAppend(p.result.value, l.result.value, p.objects, l.objects, rows, n);
        }
      }
    }
  }

  predicate LinksStored(links: seq<Option<string>>, objects: S3Service.Objects, rows: seq<Row>)
    requires |links| <= |rows|
  {
    forall i :: 0 <= i < |links| && links[i].Some? ==>
      links[i].value == PostLink(rows[i].postId) && (VideoBucket, VideoKey(rows[i].postId)) in objects
  }

  lemma LinksAppend(prev: seq<Option<string>>, last: Option<string>, before: S3Service.Objects,
                    after: S3Service.Objects, rows: seq<Row>, n: nat)
    requires 0 < n <= |rows| && |prev| == n - 1 && before <= after
    requires LinksStored(prev, before, rows)
    requires last.Some? ==> last.value == PostLink(rows[n - 1].postId) && (VideoBucket, VideoKey(rows[n - 1].postId)) in after
    ensures LinksStored(prev + [last], after, rows)
  {
    var links := prev + [last];
    forall i | 0 <= i < n && links[i].Some?
      ensures links[i].value == PostLink(rows[i].postId) && (VideoBucket, VideoKey(rows[i].postId)) in after
    {
      if i < n - 1 { assert links[i] == prev[i]; }
    }
  }

  /** The rows with `df.at[index, "video_link"] = vid_link` done for the
      first `|links|` of them. */
  function WithLinks(rows: seq<Row>, links: seq<Option<string>>): (out: seq<Row>)
    requires |links| <= |rows|
    ensures |out| == |links|
  {
    seq(|links|, i requires 0 <= i < |links| => rows[i].(videoLink := links[i]))
  }

  /** The loop of `download_vids`: the link of every row, in order, while
      the browser is open. */
  method FetchLinks(w: World, tempDir: string, rows: seq<Row>, remote: Remote)
    returns (r: Result<seq<Option<string>>, Exception>)
    requires w.browserOpen
    modifies w
    ensures var s := Links(old(w.objects), old(w.files), tempDir, rows, remote, |rows|);
      && r == s.result && w.objects == s.objects && w.files == s.files && w.trace == old(w.trace) + s.events
    ensures w.browserOpen
  {
    ghost var objects0, files0, trace0 := w.objects, w.files, w.trace;
    ghost var events: seq<Event> := [];
    var links: seq<Option<string>> := [];
    var i := 0;
    while i < |rows|
      invariant 0 <= i <= |rows|
      invariant w.browserOpen
      invariant Links(objects0, files0, tempDir, rows, remote, i) == LinksStep(Ok(links), w.objects, w.files, events)
      invariant w.trace == trace0 + events
    {
      ghost var step := LinkOf(w.objects, w.files, true, tempDir, rows[i].url, rows[i].postId, remote);
      LinksNext(objects0, files0, tempDir, rows, remote, i, links, w.objects, w.files, events);
      var link := GetS3VideoLink(w, tempDir, rows[i].url, rows[i].postId, remote);
      if link.Err? {
        LinksErrStays(objects0, files0, tempDir, rows, remote, i + 1, |rows|);
        return Err(link.error);
      }
      links := links + [link.value];
      events := events + step.events;
      i := i + 1;
    }
    return Ok(links);
  }

  /** `download_vids`: the browser is opened, every row gets its
      `video_link` in order, and the browser is closed. An exception on a
      row propagates and leaves the browser open. */
  method DownloadVids(w: World, tempDir: string, rows: seq<Row>, remote: Remote)
    returns (r: Result<seq<Row>, Exception>)
    modifies w
    ensures var s := Links(old(w.objects), old(w.files), tempDir, rows, remote, |rows|);
      && w.objects == s.objects && w.files == s.files
      && (s.result.Err? ==>
            r == Err(s.result.error) && w.browserOpen && w.trace == old(w.trace) + [BrowserOpened] + s.events)
      && (s.result.Ok? ==>
            && r.Ok? && |r.value| == |rows| == |s.result.value|
            && (forall i :: 0 <= i < |rows| ==> r.value[i] == rows[i].(videoLink := s.result.value[i]))
            && !w.browserOpen && w.trace == old(w.trace) + [BrowserOpened] + s.events + [BrowserClosed])
  {
    w.OpenBrowser();
    var links := FetchLinks(w, tempDir, rows, remote);
    if links.Err? {
      return Err(links.error);
    }
    LinksShape(old(w.objects), old(w.files), tempDir, rows, remote, |rows|);
    w.CloseBrowser();
    return Ok(WithLinks(rows, links.value));
  }

  // ------------------------------------------------------- _transcribe_video

  /** `f"{video_dir}/{video_filename}"` with `os.path.basename(s3_url)`. */
  function VideoFilePath(tempDir: string, url: string): string
  {
    tempDir + "/" + Basename(url)
  }

  /** A URL ending in ".mp4" gives a video file and an audio file at two
      different paths. */
  lemma TempPathsDiffer(tempDir: string, url: string)
    requires EndsWith(url, ".mp4")
    ensures VideoFilePath(tempDir, url) != AudioPaths.WavPath(tempDir, url)
  {
    var b := Basename(url);
    var i := RFindChar(url, '/');
    assert b == url[i + 1..];
    assert url[|url| - 1] == '4';
    assert i < |url| - 1;
    assert b[|b| - 1] == '4';
    var v := VideoFilePath(tempDir, url);
    var a := AudioPaths.WavPath(tempDir, url);
    assert v[|v| - 1] == '4';
    assert a[|a| - 1] == 'v';
  }

  /** The link of a post names a ".mp4" object, so its temporary video and
      audio files never coincide. */
  lemma PostLinkPathsDiffer(tempDir: string, postId: string)
    ensures VideoFilePath(tempDir, PostLink(postId)) != AudioPaths.WavPath(tempDir, PostLink(postId))
  {
    var link := PostLink(postId);
    assert link[|link| - 4..] == ".mp4";
    TempPathsDiffer(tempDir, link);
  }

  /** The outcome of `_transcribe_video`: the result and the files and
      effects after it. */
  datatype TranscribeStep = TranscribeStep(result: Result<Option<string>, Exception>, files: set<string>,
                                           events: seq<Event>)

  /** `_transcribe_video`: a missing link raises TypeError (`basename` of
      None); the video is downloaded to the temporary directory, its audio
      extracted next to it, the audio transcribed whole, and both files
      removed. A failed download or extraction gives None; a transcription
      that raises propagates before the removals; when the two paths
      coincide the second removal raises FileNotFoundError. */
  function TranscribeOf(objects: S3Service.Objects, files: set<string>, tempDir: string, s3Url: Option<string>,
                        served: bool, decodes: bool,
                        recognize: (string, Transcription.Engine, Transcription.Recording) -> Transcription.Recognition)
    : TranscribeStep
  {
    if s3Url.None? then TranscribeStep(Err(TypeError), files, [])
    else
      var url := s3Url.value;
      TranscribeAt(objects, files, url, VideoFilePath(tempDir, url), AudioPaths.WavPath(tempDir, url),
                   served, decodes, recognize)
  }

  /** The steps of `_transcribe_video` once the two paths are known. */
  function TranscribeAt(objects: S3Service.Objects, files: set<string>, url: string, videoPath: string,
                        audioPath: string, served: bool, decodes: bool,
                        recognize: (string, Transcription.Engine, Transcription.Recording) -> Transcription.Recognition)
    : TranscribeStep
  {
    var download := S3Service.Download(objects, files, url, videoPath, served);
    if !download.1 then TranscribeStep(Ok(None), files, [])
    else if !decodes then TranscribeStep(Ok(None), download.0, [Downloaded(url, videoPath)])
    else
      var transcript := Transcription.Transcribe(audioPath, None, None, Transcription.AudioServiceModel, recognize);
      var extracted := [Downloaded(url, videoPath), AudioExtracted(videoPath, audioPath), Transcribed(audioPath, None, None)];
      if transcript.Err? then TranscribeStep(Err(transcript.error), download.0 + {audioPath}, extracted)
      else if videoPath == audioPath then
        TranscribeStep(Err(FileNotFoundError(audioPath)), download.0 - {videoPath}, extracted + [Removed(videoPath)])
      else
        TranscribeStep(Ok(Some(transcript.value)), download.0 + {audioPath} - {videoPath, audioPath},
                       extracted + [Removed(videoPath), Removed(audioPath)])
  }

  /** What `_transcribe_video` promises once the paths are known: None
      exactly when the download or the extraction fails, and then at most
      the downloaded video is left behind; a transcript is the complete
      transcript of the extracted audio, and then neither temporary file is
      left; no other file is ever created. */
  lemma TranscribeAtFacts(objects: S3Service.Objects, files: set<string>, url: string, videoPath: string,
                          audioPath: string, served: bool, decodes: bool,
                          recognize: (string, Transcription.Engine, Transcription.Recording) -> Transcription.Recognition)
    ensures var s := TranscribeAt(objects, files, url, videoPath, audioPath, served, decodes, recognize);
      var downloaded := S3Service.Download(objects, files, url, videoPath, served).1;
      && (s.result == Ok(None) <==> !downloaded || !decodes)
      && (s.result == Ok(None) ==> s.files == files || s.files == files + {videoPath})
      && (s.result.Ok? && s.result.value.Some? ==>
            && s.result == Ok(Some(Transcription.Transcribe(audioPath, None, None, Transcription.AudioServiceModel, recognize).value))
            && videoPath != audioPath
            && s.files == files - {videoPath, audioPath})
      && s.files <= files + {videoPath, audioPath}
  {
  }

  /** For the link of a post the two temporary paths differ, so the call
      never ends in FileNotFoundError: a transcript that does not raise is
      returned. */
  lemma PostLinkTranscribes(objects: S3Service.Objects, files: set<string>, tempDir: string, postId: string,
                            served: bool, decodes: bool,
                            recognize: (string, Transcription.Engine, Transcription.Recording) -> Transcription.Recognition)
    requires S3Service.Download(objects, files, PostLink(postId), VideoFilePath(tempDir, PostLink(postId)), served).1
    requires decodes
    requires Transcription.Transcribe(AudioPaths.WavPath(tempDir, PostLink(postId)), None, None,
                                      Transcription.AudioServiceModel, recognize).Ok?
    ensures TranscribeOf(objects, files, tempDir, Some(PostLink(postId)), served, decodes, recognize).result.Ok?
    ensures TranscribeOf(objects, files, tempDir, Some(PostLink(postId)), served, decodes, recognize).result.value.Some?
  {
    PostLinkPathsDiffer(tempDir, postId);
  }

  /** `_transcribe_video`, step by step on the world. */
  method TranscribeVideo(w: World, tempDir: string, s3Url: Option<string>, served: bool, decodes: bool,
                         recognize: (string, Transcription.Engine, Transcription.Recording) -> Transcription.Recognition)
    returns (r: Result<Option<string>, Exception>)
    modifies w
    ensures var s := TranscribeOf(old(w.objects), old(w.files), tempDir, s3Url, served, decodes, recognize);
      r == s.result && w.files == s.files && w.trace == old(w.trace) + s.events
    ensures w.objects == old(w.objects) && w.browserOpen == old(w.browserOpen)
  {
    if s3Url.None? {
      return Err(TypeError);
    }
    var url := s3Url.value;
    r := TranscribeFiles(w, url, VideoFilePath(tempDir, url), AudioPaths.WavPath(tempDir, url), served, decodes, recognize);
  }

  /** The download, extraction, transcription and removals of
      `_transcribe_video` on the world. */
  method TranscribeFiles(w: World, url: string, videoPath: string, audioPath: string, served: bool, decodes: bool,
                         recognize: (string, Transcription.Engine, Transcription.Recording) -> Transcription.Recognition)
    returns (r: Result<Option<string>, Exception>)
    modifies w
    ensures var s := TranscribeAt(old(w.objects), old(w.files), url, videoPath, audioPath, served, decodes, recognize);
      r == s.result && w.files == s.files && w.trace == old(w.trace) + s.events
    ensures w.objects == old(w.objects) && w.browserOpen == old(w.browserOpen)
  {
    var downloaded := w.Download(url, videoPath, served);
    if !downloaded {
      return Ok(None);
    }
    var extracted := w.ExtractAudio(videoPath, audioPath, decodes);
    if !extracted {
      return Ok(None);
    }
    var transcript := Transcription.Transcribe(audioPath, None, None, Transcription.AudioServiceModel, recognize);
    w.Record(Transcribed(audioPath, None, None));
    if transcript.Err? {
      return Err(transcript.error);
    }
    var removedVideo := w.Remove(videoPath);
    assert removedVideo.Ok?;
    var removedAudio := w.Remove(audioPath);
    if removedAudio.Err? {
      return Err(removedAudio.error);
    }
    return Ok(Some(transcript.value));
  }

  // ---------------------------------------------------------------- _get_hook

  /** `ShootingStyle("", "", "", "")`. */
  const EmptyStyle: LlmAgent.ShootingStyle := LlmAgent.ShootingStyle("", "", "", "")

  /** `shooting_style.__dict__`, the object `json.dumps` serialises. */
  function StyleJson(s: LlmAgent.ShootingStyle): JsonData.Json
  {
    JsonData.JObject(map[
      "visual_style_summary" := JsonData.JStr(s.visualStyleSummary),
      "visual_style" := JsonData.JStr(s.visualStyle),
      "audio_style" := JsonData.JStr(s.audioStyle),
      "creator_instructions" := JsonData.JStr(s.creatorInstructions)])
  }

  /** Reading a style back from its JSON object. */
  function StyleOfJson(j: JsonData.Json): Option<LlmAgent.ShootingStyle>
  {
    if j.JObject? then
      var f := j.fields;
      if && "visual_style_summary" in f && f["visual_style_summary"].JStr?
         && "visual_style" in f && f["visual_style"].JStr?
         && "audio_style" in f && f["audio_style"].JStr?
         && "creator_instructions" in f && f["creator_instructions"].JStr?
      then Some(LlmAgent.ShootingStyle(f["visual_style_summary"].s, f["visual_style"].s,
                                       f["audio_style"].s, f["creator_instructions"].s))
      else None
    else None
  }

  /** The stored style holds exactly the four fields and reads back as the
      style it was made from. */
  lemma StyleJsonRoundTrip(s: LlmAgent.ShootingStyle)
    ensures StyleJson(s).fields.Keys == {"visual_style_summary", "visual_style", "audio_style", "creator_instructions"}
    ensures StyleOfJson(StyleJson(s)) == Some(s)
  {
    var f := StyleJson(s).fields;
    assert f["visual_style_summary"] == JsonData.JStr(s.visualStyleSummary);
    assert f["creator_instructions"] == JsonData.JStr(s.creatorInstructions);
  }

  /** `_get_hook`: a missing link raises TypeError; a failed download sets
      both hooks to None and the style to the empty style; otherwise the frame
      at second 1 gives the screen hook and the hook analysis, the script
      gives the audio hook, and the video file is removed. `video` is what
      the downloaded file decodes to; the replies are the language model's. */
  method GetHook<F>(w: World, tempDir: string, row: Row, served: bool, video: Frames.Video<F>,
                    screenReply: Result<string, Exception>, styleReply: Result<string, Exception>,
                    analysisReply: string -> Result<string, Exception>)
    returns (r: Result<Row, Exception>)
    modifies w
    ensures row.videoLink.None? ==> r == Err(TypeError) && w.files == old(w.files) && w.trace == old(w.trace)
    ensures row.videoLink.Some? ==>
      var url := row.videoLink.value;
      var videoPath := VideoFilePath(tempDir, url);
      var download := S3Service.Download(old(w.objects), old(w.files), url, videoPath, served);
      var frame := VisualService.HookFrameOf(video, 1);
      && (!download.1 ==>
            && r == Ok(row.(screenHook := None, audioHook := None, style := Some(StyleJson(EmptyStyle))))
            && w.files == old(w.files) && w.trace == old(w.trace))
      && (download.1 ==>
            && r == Ok(row.(screenHook := Some(LlmAgent.ScreenHook(frame, screenReply)),
                            audioHook := Some(Transcript.AudioHook(row.fullScript)),
                            style := Some(StyleJson(LlmAgent.HookAnalysis(frame, row.fullScript, styleReply, analysisReply)))))
            && w.files == old(w.files) - {videoPath}
            && w.trace == old(w.trace) + [Downloaded(url, videoPath), Removed(videoPath)])
    ensures w.objects == old(w.objects) && w.browserOpen == old(w.browserOpen)
  {
    if row.videoLink.None? {
      return Err(TypeError);
    }
    var url := row.videoLink.value;
    var videoPath := VideoFilePath(tempDir, url);
    var downloaded := w.Download(url, videoPath, served);
    if !downloaded {
      return Ok(row.(screenHook := None, audioHook := None, style := Some(StyleJson(EmptyStyle))));
    }
    var frame := VisualService.ExtractHookFrame(video, 1);
    var screenHook := LlmAgent.ScreenHook(frame, screenReply);
    var audioHook := Transcript.AudioHook(row.fullScript);
    var shootingStyle := LlmAgent.HookAnalysis(frame, row.fullScript, styleReply, analysisReply);
    var removed := w.Remove(videoPath);
    assert removed.Ok?;
    return Ok(row.(screenHook := Some(screenHook), audioHook := Some(audioHook), style := Some(StyleJson(shootingStyle))));
  }
}

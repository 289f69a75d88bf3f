/** The outside world the ingestion and recommendation services change: the
    objects of the storage service, the local files, the scraper's browser,
    and the trace of the effects performed on them, in order. What a remote
    service or a decoder would do on one call is a parameter of that call. */
module Effects {
  import opened Wrappers
  import opened Strings
  import S3Service

  /** One effect on the world. */
  datatype Event =
    | BrowserOpened
    | BrowserClosed
    | Scraped(url: string, path: string)          // a video page saved to a local file
    | Uploaded(bucket: string, key: string)
    | Downloaded(url: string, path: string)
    | AudioExtracted(videoPath: string, audioPath: string)
    | Transcribed(audioPath: string, start: Option<real>, end: Option<real>)
    | Removed(path: string)
    | Slept
    | Requested(call: string)                     // a request to the language model

  class World {
    var objects: S3Service.Objects
    var files: set<string>
    var browserOpen: bool
    var trace: seq<Event>

    constructor (objects0: S3Service.Objects, files0: set<string>)
      ensures objects == objects0 && files == files0 && !browserOpen && trace == []
    {
      objects := objects0;
      files := files0;
      browserOpen := false;
      trace := [];
    }

    /** An effect outside the world's state (a request, a pause). */
    method Record(e: Event)
      modifies this
      ensures trace == old(trace) + [e]
      ensures objects == old(objects) && files == old(files) && browserOpen == old(browserOpen)
    {
      trace := trace + [e];
    }

    /** `ScraperService.open_browser`: a new driver. */
    method OpenBrowser()
      modifies this
      ensures browserOpen
      ensures trace == old(trace) + [BrowserOpened]
      ensures objects == old(objects) && files == old(files)
    {
      browserOpen := true;
      trace := trace + [BrowserOpened];
    }

    /** `ScraperService.close_browser`: quits a driver that is there, and
        does nothing otherwise. */
    method CloseBrowser()
      modifies this
      ensures !browserOpen
      ensures trace == old(trace) + if old(browserOpen) then [BrowserClosed] else []
      ensures objects == old(objects) && files == old(files)
    {
      if browserOpen {
        browserOpen := false;
        trace := trace + [BrowserClosed];
      }
    }

    /** `ScraperService.download_video`: with an open browser and a page that
        yields a video (`fetched`), the video is written to
        `os.path.join(temp_dir, filename)` and that path returned; every
        failure (no driver, no video tag, a bad status) gives None. */
    method Scrape(url: string, filename: string, tempDir: string, fetched: bool) returns (temp: Option<string>)
      modifies this
      ensures temp.Some? <==> old(browserOpen) && fetched
      ensures temp.Some? ==> temp.value == PathJoin(tempDir, filename)
      ensures temp.Some? ==> files == old(files) + {temp.value} && trace == old(trace) + [Scraped(url, temp.value)]
      ensures temp.None? ==> files == old(files) && trace == old(trace)
      ensures objects == old(objects) && browserOpen == old(browserOpen)
    {
      if browserOpen && fetched {
        var path := PathJoin(tempDir, filename);
        files := files + {path};
        trace := trace + [Scraped(url, path)];
        return Some(path);
      }
      return None;
    }

    /** `S3Service.upload_to_s3` on the world. */
    method Upload(bucket: string, key: string, tempFile: string, accepted: bool) returns (link: Option<string>)
      modifies this
      ensures (objects, link) == S3Service.Upload(old(objects), old(files), bucket, key, tempFile, accepted)
      ensures trace == old(trace) + if link.Some? then [Uploaded(bucket, key)] else []
      ensures files == old(files) && browserOpen == old(browserOpen)
    {
      var result := S3Service.Upload(objects, files, bucket, key, tempFile, accepted);
      objects, link := result.0, result.1;
      if link.Some? {
        trace := trace + [Uploaded(bucket, key)];
      }
    }

    /** `S3Service.download_from_s3` on the world. */
    method Download(url: string, localPath: string, served: bool) returns (ok: bool)
      modifies this
      ensures (files, ok) == S3Service.Download(old(objects), old(files), url, localPath, served)
      ensures trace == old(trace) + if ok then [Downloaded(url, localPath)] else []
      ensures objects == old(objects) && browserOpen == old(browserOpen)
    {
      var result := S3Service.Download(objects, files, url, localPath, served);
      files, ok := result.0, result.1;
      if ok {
        trace := trace + [Downloaded(url, localPath)];
      }
    }

    /** `extract_audio` of app/utils/audio.py: True when the video file
        exists and decodes (`decodes`), and then the WAV file exists; every
        exception gives False. */
    method ExtractAudio(videoPath: string, audioPath: string, decodes: bool) returns (ok: bool)
      modifies this
      ensures ok <==> videoPath in old(files) && decodes
      ensures ok ==> files == old(files) + {audioPath} && trace == old(trace) + [AudioExtracted(videoPath, audioPath)]
      ensures !ok ==> files == old(files) && trace == old(trace)
      ensures objects == old(objects) && browserOpen == old(browserOpen)
    {
      ok := videoPath in files && decodes;
      if ok {
        files := files + {audioPath};
        trace := trace + [AudioExtracted(videoPath, audioPath)];
      }
    }

    /** `os.remove`: a missing file raises FileNotFoundError. */
    method Remove(path: string) returns (r: Result<(), Exception>)
      modifies this
      ensures path in old(files) ==> r == Ok(()) && files == old(files) - {path} && trace == old(trace) + [Removed(path)]
      ensures path !in old(files) ==> r == Err(FileNotFoundError(path)) && files == old(files) && trace == old(trace)
      ensures objects == old(objects) && browserOpen == old(browserOpen)
    {
      if path !in files {
        return Err(FileNotFoundError(path));
      }
      files := files - {path};
      trace := trace + [Removed(path)];
      return Ok(());
    }
  }
}

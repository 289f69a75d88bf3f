/** The object-storage client of app/services/client/s3_service.py (and its
    copy without a download, app/services/s3_service.py). The storage
    service is a set of `(bucket, key)` pairs; what the service itself may
    refuse is a parameter of each call. */
module S3Service {
  import opened Wrappers
  import opened Strings

  type Objects = set<(string, string)>

  // ------------------------------------------------------------- locations

  /** `f"s3://{bucket_name}/{object_name}"`. */
  function Location(bucket: string, key: string): string
  {
    "s3://" + bucket + "/" + key
  }

  /** The parse of `download_from_s3`: the bucket is field 2 of the
      `/`-split and the key the fields after it joined with `/`; a URL with
      fewer than two `/` raises IndexError. */
  function ParseUrl(url: string): (r: Result<(string, string), Exception>)
    ensures r.Err? ==> r.error == IndexError
    ensures r.Ok? ==> '/' !in r.value.0
  {
    var parts := Split(url, "/");
    if |parts| < 3 then Err(IndexError)
    else
      SplitPiecesFree(url, "/");
      NoSlash(parts[2]);
      Ok((parts[2], Join("/", parts[3..])))
  }

  /** A string contains the one-letter string "/" exactly when it holds the
      code point '/'. */
  lemma NoSlash(s: string)
    ensures Contains(s, "/") <==> '/' in s
  {
    if '/' in s {
      var j :| 0 <= j < |s| && s[j] == '/';
      assert OccursAt(s, "/", j);
    }
    if Contains(s, "/") {
      var j := IndexOf(s, "/");
      assert s[j..j + 1] == "/";
      assert s[j] == '/';
    }
  }

  /** Splitting at the first '/' peels off a slash-free first piece. */
  lemma SplitAfterPiece(a: string, rest: string)
    requires '/' !in a
    ensures Split(a + "/" + rest, "/") == [a] + Split(rest, "/")
  {
    var s := a + "/" + rest;
    assert OccursAt(s, "/", |a|) by { assert s[|a|..|a| + 1] == "/"; }
    forall j | 0 <= j < |a| ensures !OccursAt(s, "/", j) {
      assert s[j..j + 1] == [a[j]];
    }
    assert IndexOf(s, "/") == |a|;
    assert s[..|a|] == a;
    assert s[|a| + 1..] == rest;
  }

  /** The pieces of a built location: "s3:", "", the bucket, then the
      pieces of the key. */
  lemma SplitLocation(bucket: string, key: string)
    requires '/' !in bucket
    ensures Split(Location(bucket, key), "/") == ["s3:", "", bucket] + Split(key, "/")
  {
    var url := Location(bucket, key);
    var tail := bucket + "/" + key;
    assert url == "s3:" + "/" + ("" + "/" + tail);
    var middle := "" + "/" + tail;
    var k := Split(key, "/");
    SplitAfterPiece("s3:", middle);
    SplitAfterPiece("", tail);
    SplitAfterPiece(bucket, key);
    assert Split(middle, "/") == [""] + ([bucket] + k);
    Prepend3("s3:", "", bucket, k);
  }

  lemma Prepend3<T>(a: T, b: T, c: T, k: seq<T>)
    ensures [a] + ([b] + ([c] + k)) == [a, b, c] + k
  {
  }

  /** Parsing a built location gives back the bucket and the key exactly
      when the bucket name has no '/'; the key may contain '/'. */
  lemma ParseLocation(bucket: string, key: string)
    ensures ParseUrl(Location(bucket, key)) == Ok((bucket, key)) <==> '/' !in bucket
  {
    if '/' !in bucket {
      SplitLocation(bucket, key);
      var parts := Split(Location(bucket, key), "/");
      assert parts[2] == bucket;
      assert parts[3..] == Split(key, "/");
      JoinSplit(key, "/");
    }
  }

  /** A bucket name with a '/' is cut at its first '/': the parse yields
      the part before it as the bucket. */
  lemma SlashInBucketCut(first: string, rest: string, key: string)
    requires '/' !in first
    ensures ParseUrl(Location(first + "/" + rest, key)).Ok?
    ensures ParseUrl(Location(first + "/" + rest, key)).value.0 == first
  {
    assert Location(first + "/" + rest, key) == Location(first, rest + "/" + key);
    SplitLocation(first, rest + "/" + key);
  }

  // ------------------------------------------------------------- the calls

  /** `head_object`: succeeds on a stored key and otherwise raises a
      `ClientError` with code "404"; `refused` is the code of a `ClientError`
      the service raises instead (an access or bucket error). */
  function Head(objects: Objects, bucket: string, key: string, refused: Option<string>): Result<(), string>
  {
    if refused.Some? then Err(refused.value)
    else if (bucket, key) in objects then Ok(())
    else Err("404")
  }

  /** `exists_in_bucket`: True when `head_object` succeeds, False on a
      "404", and any other client error re-raised. */
  function ExistsInBucket(objects: Objects, bucket: string, key: string, refused: Option<string>): (r: Result<bool, Exception>)
    ensures r == Ok(true) <==> refused.None? && (bucket, key) in objects
    ensures r == Ok(false) <==> refused == Some("404") || (refused.None? && (bucket, key) !in objects)
    ensures r.Err? <==> refused.Some? && refused.value != "404"
    ensures r.Err? ==> r.error == ClientError(refused.value)
  {
    var head := Head(objects, bucket, key, refused);
    if head.Ok? then Ok(true)
    else if head.error == "404" then Ok(false)
    else Err(ClientError(head.error))
  }

  /** `upload_to_s3`: `upload_file` reads the local file and stores it under
      the bucket and key; it fails when the file is missing or the service
      does not accept it (`accepted`), and every failure gives None. */
  function Upload(objects: Objects, files: set<string>, bucket: string, key: string, tempFile: string, accepted: bool): (r: (Objects, Option<string>))
    ensures r.1.Some? <==> tempFile in files && accepted
    ensures r.1.Some? ==> r.1.value == Location(bucket, key) && r.0 == objects + {(bucket, key)}
    ensures r.1.None? ==> r.0 == objects
  {
    if tempFile in files && accepted then (objects + {(bucket, key)}, Some(Location(bucket, key)))
    else (objects, None)
  }

  /** `download_from_s3`: True when the URL parses, the object is stored and
      the service serves it (`accepted`); and the local file then exists.
      Every exception, the IndexError of a short URL included, gives False. */
  function Download(objects: Objects, files: set<string>, url: string, localPath: string, accepted: bool): (r: (set<string>, bool))
    ensures r.1 <==> ParseUrl(url).Ok? && ParseUrl(url).value in objects && accepted
    ensures r.1 ==> r.0 == files + {localPath}
    ensures !r.1 ==> r.0 == files
  {
    var location := ParseUrl(url);
    if location.Ok? && location.value in objects && accepted then (files + {localPath}, true)
    else (files, false)
  }

  /** After a successful upload the object exists, and its location
      downloads again when the bucket name has no '/'. */
  lemma UploadThenFound(objects: Objects, files: set<string>, bucket: string, key: string, tempFile: string, localPath: string)
    requires Upload(objects, files, bucket, key, tempFile, true).1.Some?
    ensures var (stored, link) := Upload(objects, files, bucket, key, tempFile, true);
      && ExistsInBucket(stored, bucket, key, None) == Ok(true)
      && ('/' !in bucket ==> Download(stored, files, link.value, localPath, true).1)
  {
    var (stored, link) := Upload(objects, files, bucket, key, tempFile, true);
    if '/' !in bucket {
      ParseLocation(bucket, key);
    }
  }
}

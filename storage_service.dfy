/** The storage service: the content-type table, the local file names, and
    the upload retry loop with exponential backoff. The storage client, the
    file system and the clock are inputs: `clock(i)` is the timestamp read at
    attempt `i`, `stat(i)` the file size seen then (`None` when `stat`
    throws), and `store(i, request)` what the bucket answers. */
module StorageService {
  import opened Wrappers
  import opened Paths
  import opened Numbers

  const DefaultBucket := "Lumina web3 file storage"
  const DefaultRetries := 3

  /** Files smaller than this many bytes are read into a buffer. */
  const BufferLimit := 5 * 1024 * 1024

  const OctetStream := "application/octet-stream"

  /** The `switch` over a lower-cased extension. */
  function MimeFor(ext: string): (r: string)
    ensures r == "video/mp4" <==> ext == ".mp4"
    ensures r == "audio/mpeg" <==> ext == ".mp3"
    ensures r == "audio/wav" <==> ext == ".wav"
    ensures r == "image/png" <==> ext == ".png"
    ensures r == "image/jpeg" <==> ext == ".jpg" || ext == ".jpeg"
    ensures r == "application/json" <==> ext == ".json"
    ensures r == OctetStream <==> ext !in {".mp4", ".mp3", ".wav", ".png", ".jpg", ".jpeg", ".json"}
  {
    if ext == ".mp4" then "video/mp4"
    else if ext == ".mp3" then "audio/mpeg"
    else if ext == ".wav" then "audio/wav"
    else if ext == ".png" then "image/png"
    else if ext == ".jpg" || ext == ".jpeg" then "image/jpeg"
    else if ext == ".json" then "application/json"
    else OctetStream
  }

  /** `getContentType(filePath)`: the type of the lower-cased extension. A
      path with no extension, by Node's rules, is an octet stream. */
  function ContentType(path: string): (r: string)
    ensures Extname(path) == [] ==> r == OctetStream
  {
    MimeFor(ToLower(Extname(path)))
  }

  /** `${ts}${tag}${name}` for a tag and a name without separators: it
      ends with the tag and the name, and holds a separator only if the
      timestamp brings one. */
  function Stamped(ts: string, tag: string, name: string): (r: string)
    requires '/' !in tag && '/' !in name
    ensures |r| == |ts| + |tag + name| && r[..|ts|] == ts
    ensures EndsWith(r, tag + name)
    ensures '/' !in ts ==> '/' !in r
  {
    var suffix := tag + name;
    EndsWithAppend(ts, suffix);
    NoSeparatorAppend(tag, name);
    if '/' in ts then ts + suffix
    else NoSeparatorAppend(ts, suffix); ts + suffix
  }

  /** `${Date.now()}-${path.basename(localPath)}`: the object name starts
      with the timestamp, ends in the local file's base name, and never
      holds a separator the timestamp does not bring. */
  function UploadFileName(ts: string, localPath: string): (r: string)
    ensures |r| == |ts| + |"-" + Basename(localPath)| && r[..|ts|] == ts
    ensures EndsWith(r, "-" + Basename(localPath))
    ensures '/' !in ts ==> '/' !in r
  {
    Stamped(ts, "-", Basename(localPath))
  }

  datatype DownloadError = InvalidUrl

  const DownloadTag := "-download-"

  lemma DownloadTagPlain()
    ensures '/' !in DownloadTag
  {
    assert DownloadTag == ['-'] + "download" + ['-'];
    assert forall k :: 0 <= k < |"download"| ==> "download"[k] != '/';
  }

  /** `${Date.now()}-download-${path.basename(pathname)}`: the timestamp,
      then the tag and the base name of the URL's path. */
  function DownloadFileName(ts: string, pathname: string): (r: string)
    ensures |r| == |ts| + |DownloadTag + Basename(pathname)| && r[..|ts|] == ts
    ensures EndsWith(r, DownloadTag + Basename(pathname))
    ensures '/' !in ts ==> '/' !in r
  {
    var name := Basename(pathname);
    DownloadTagPlain();
    Stamped(ts, DownloadTag, name)
  }

  /** `path.join(config.uploadsDir, fileName)` for a download, given the
      parsed URL's path (`None` when `new URL(url)` throws). Whatever the
      URL's path, the file lands directly inside the uploads directory. */
  function DownloadPath(uploadsDir: string, ts: string, pathname: Option<string>): (r: Result<string, DownloadError>)
    ensures r.Failure? <==> pathname.None?
    ensures r.Success? ==>
              && |r.value| > |uploadsDir|
              && r.value[..|uploadsDir|] == uploadsDir && r.value[|uploadsDir|] == '/'
              && |r.value| == |uploadsDir| + 1 + |ts| + |DownloadTag + Basename(pathname.value)|
              && r.value[|uploadsDir| + 1..][..|ts|] == ts
              && ('/' !in ts ==> '/' !in r.value[|uploadsDir| + 1..])
              && EndsWith(r.value, DownloadTag + Basename(pathname.value))
  {
    match pathname
    case None => Failure(InvalidUrl)
    case Some(p) =>
      var name := DownloadFileName(ts, p);
      var full := Join(uploadsDir, name);
      assert full[|full| - |name|..] == name;
      Success(full)
  }

  datatype Body = Buffer | Stream

  /** Small files are sent from memory, large ones streamed. */
  function BodyFor(size: nat): (r: Body)
    ensures r == Buffer <==> size < BufferLimit
  {
    if size < BufferLimit then Buffer else Stream
  }

  /** What one attempt hands to the bucket: the bucket, and what the object
      name, content type and body are made from (the local path, the
      attempt's timestamp and the size `stat` reported). */
  datatype UploadRequest = UploadRequest(bucket: string, localPath: string, timestamp: string, size: nat) {
    function ObjectName(): string { UploadFileName(timestamp, localPath) }
    function MimeType(): string { ContentType(localPath) }
    function BodyKind(): Body { BodyFor(size) }
  }

  /** The bucket's answer: the object's public URL, or the `error` it returns. */
  datatype StoreOutcome = Stored(publicUrl: string) | StoreError(message: string)

  /** What can make an attempt fail: `stat` throwing, or a storage error. */
  datatype UploadError = StatFailed | StorageError(message: string)

  /** The request attempt `i` sends once the file size is known. */
  function RequestAt(i: nat, localPath: string, bucket: string, clock: nat -> string, size: nat): UploadRequest {
    UploadRequest(bucket, localPath, clock(i), size)
  }

  /** The outcome of attempt `i` on its own: `stat` the file, build the
      request, upload, and turn a storage `error` into a thrown one. */
  function Attempt(i: nat, localPath: string, bucket: string, clock: nat -> string,
                   stat: nat -> Option<nat>, store: (nat, UploadRequest) -> StoreOutcome)
    : (r: Result<string, UploadError>)
    ensures r.Success? <==> stat(i).Some? && store(i, RequestAt(i, localPath, bucket, clock, stat(i).value)).Stored?
  {
    match stat(i)
    case None => Failure(StatFailed)
    case Some(size) =>
      match store(i, RequestAt(i, localPath, bucket, clock, size))
      case Stored(url) => Success(url)
      case StoreError(m) => Failure(StorageError(m))
  }

  /** The waits after the first `n` failed attempts: 1000 ms, 2000 ms, 4000 ms, ... */
  function Backoff(n: nat): (r: seq<nat>)
    ensures |r| == n
  {
    if n == 0 then [] else Backoff(n - 1) + [Pow2(n - 1) * 1000]
  }

  /** A `for (i = 0; i < retries; i++)` loop runs this many times. */
  function AttemptLimit(retries: int): nat {
    if retries > 0 then retries else 0
  }

  /** How many waits follow `failures` failed attempts out of `retries`:
      one after each, except after the last allowed attempt. */
  function WaitCount(failures: nat, retries: int): nat {
    if failures < retries || failures == 0 then failures else failures - 1
  }

  /** `uploadToSupabase(localPath, bucket, retries)`: at most `retries`
      attempts; the first success returns its URL at once; otherwise the
      last attempt's error is thrown (`undefined` when no attempt ran).
      `attempts` counts the attempts made and `waits` the delays slept. */
  method UploadToSupabase(localPath: string, bucket: string, retries: int, clock: nat -> string,
                          stat: nat -> Option<nat>, store: (nat, UploadRequest) -> StoreOutcome)
    returns (r: Result<string, Option<UploadError>>, attempts: nat, waits: seq<nat>)
    ensures attempts <= AttemptLimit(retries)
    ensures forall j :: 0 <= j < attempts - 1 ==> Attempt(j, localPath, bucket, clock, stat, store).Failure?
    ensures r.Success? ==> attempts >= 1 && Attempt(attempts - 1, localPath, bucket, clock, stat, store) == Success(r.value)
    ensures r.Success? ==> waits == Backoff(attempts - 1)
    ensures r.Failure? ==>
              && attempts == AttemptLimit(retries)
              && (attempts == 0 ==> r.error == None)
              && (attempts > 0 ==> var last := Attempt(attempts - 1, localPath, bucket, clock, stat, store);
                                   last.Failure? && r.error == Some(last.error))
              && waits == Backoff(WaitCount(attempts, retries))
  {
    var lastError: Option<UploadError> := None;
    var i := 0;
    waits := [];
    while i < retries
      invariant 0 <= i && (i <= retries || i == 0)
      invariant forall j :: 0 <= j < i ==> Attempt(j, localPath, bucket, clock, stat, store).Failure?
      invariant i == 0 ==> lastError == None
      invariant i > 0 ==> lastError == Some(Attempt(i - 1, localPath, bucket, clock, stat, store).error)
      invariant waits == Backoff(WaitCount(i, retries))
    {
      // the `try` block: stat, read or stream, upload
      var outcome := Attempt(i, localPath, bucket, clock, stat, store);
      if outcome.Success? {
        r, attempts := Success(outcome.value), i + 1;
        assert WaitCount(i, retries) == i;
        return;
      }
      lastError := Some(outcome.error);
      if i < retries - 1 {
        assert WaitCount(i + 1, retries) == i + 1 && WaitCount(i, retries) == i;
        waits := waits + [Pow2(i) * 1000];
      } else {
        assert WaitCount(i + 1, retries) == WaitCount(i, retries);
      }
      i := i + 1;
    }
    r, attempts := Failure(lastError), i;
  }
}

/** Properties of the storage service. */
module StorageServiceProofs {
  import opened Wrappers
  import opened Paths
  import opened Numbers
  import opened StorageService
  import opened PathsProofs

  /** The content type does not depend on the case of the path. */
  lemma ContentTypeIgnoresCase(path: string)
    ensures ContentType(ToLower(path)) == ContentType(path)
  {
    ExtnameLower(path);
    ToLowerIdempotent(Extname(path));
  }

  /** The table of `getContentType`, stated over any path: each type is
      chosen exactly by its lower-cased extensions, everything else is an
      octet stream. */
  lemma ContentTypeTable(path: string)
    ensures var e := ToLower(Extname(path));
            && (ContentType(path) == "video/mp4" <==> e == ".mp4")
            && (ContentType(path) == "audio/mpeg" <==> e == ".mp3")
            && (ContentType(path) == "audio/wav" <==> e == ".wav")
            && (ContentType(path) == "image/png" <==> e == ".png")
            && (ContentType(path) == "image/jpeg" <==> e == ".jpg" || e == ".jpeg")
            && (ContentType(path) == "application/json" <==> e == ".json")
            && (ContentType(path) == OctetStream <==> e !in {".mp4", ".mp3", ".wav", ".png", ".jpg", ".jpeg", ".json"})
  {
    var e := ToLower(Extname(path));
    assert ContentType(path) == MimeFor(e);
  }

  /** An upper-case extension maps like a lower-case one. */
  lemma UpperCaseExtensionExample()
    ensures ContentType("CLIP.MP4") == "video/mp4"
  {
    ClipExtension();
    LowerMp4();
  }

  /** The extension of "CLIP.MP4" keeps its case. */
  lemma ClipExtension()
    ensures Extname("CLIP.MP4") == ".MP4"
  {
    var b := "CLIP.MP4";
    ClipBasename();
    ClipLastDot();
    assert b != "..";
    assert b[4..] == ".MP4";
  }

  lemma ClipBasename()
    ensures Basename("CLIP.MP4") == "CLIP.MP4"
  {
    var b := "CLIP.MP4";
    assert forall k :: 0 <= k < |b| ==> b[k] != '/';
    BasenameWhole(b);
  }

  lemma ClipLastDot()
    ensures LastDot("CLIP.MP4") == Some(4)
  {
    var b := "CLIP.MP4";
    assert b[4] == '.' && forall j :: 4 < j < |b| ==> b[j] != '.';
    LastDotAt(b, 4);
  }

  lemma LowerMp4()
    ensures ToLower(".MP4") == ".mp4"
  {
    var e := ToLower(".MP4");
    assert e[1] == 'm' && e[2] == 'p';
    assert e == ".mp4";
  }

  /** A dot-file has no extension, so it is an octet stream. */
  lemma DotFileExample()
    ensures ContentType(".mp4") == OctetStream
  {
    var b := ".mp4";
    assert StripTrailingSlashes(b) == b;
    assert AfterLastSlash(b) == b;
    assert LastDot(b) == Some(0);
  }

  /** The backoff doubles: wait `j` is `2^j` seconds. */
  lemma {:induction false} BackoffAt(n: nat, j: nat)
    requires j < n
    ensures Backoff(n)[j] == Pow2(j) * 1000
  {
    if j < n - 1 {
      BackoffAt(n - 1, j);
    }
  }

  /** The time slept over `n` waits is `(2^n - 1)` seconds. */
  function TotalWait(waits: seq<nat>): nat {
    if waits == [] then 0 else TotalWait(waits[..|waits| - 1]) + waits[|waits| - 1]
  }

  lemma {:induction false} BackoffTotal(n: nat)
    ensures TotalWait(Backoff(n)) + 1000 == Pow2(n) * 1000
  {
    if n > 0 {
      BackoffTotal(n - 1);
      assert Backoff(n)[..n - 1] == Backoff(n - 1);
    }
  }

  /** With the default three attempts all failing, the service sleeps 1 s
      and then 2 s, and not after the last failure. */
  lemma DefaultRetriesBackoff()
    ensures WaitCount(DefaultRetries, DefaultRetries) == 2
    ensures Backoff(WaitCount(DefaultRetries, DefaultRetries)) == [1000, 2000]
  {
    assert Pow2(1) == 2;
  }
}

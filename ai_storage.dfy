/**
 * Local media storage (ai/s3_utils.py), which stands in for S3: the name a
 * stored file gets, the URL handed back for it, and which source an image
 * comes from.
 *
 * The file system, HTTP downloads and base64 decoding are oracles: whether
 * the folder could be created, whether a write or a download succeeded
 * (status 200 and every chunk written), and what `b64decode` gives for a
 * payload (None when it raises). The clock is the whole seconds `now`.
 */
module AiStorage {
  import opened Wrappers
  import opened Text

  /** The URL prefix of everything stored locally. */
  const MediaPrefix: string := "/media/"
  const ImagesFolder: string := "images"
  /** What `upload_image_to_s3` hands back when nothing could be stored. */
  const RemoteFallback: string := "https://picsum.photos/400/300"

  type Byte = bv8

  /** The index of the last `c` in `s`, or -1 (`str.rfind`). */
  function LastIndexOf(s: string, c: char): (r: int)
    ensures -1 <= r < |s|
    ensures r >= 0 ==> s[r] == c
    ensures forall k :: r < k < |s| ==> s[k] != c
  {
    if s == [] then -1
    else if s[|s| - 1] == c then |s| - 1
    else LastIndexOf(s[..|s| - 1], c)
  }

  /** The index of the first `c` in `s`, or -1 (`str.find`). */
  function FirstIndexOf(s: string, c: char): (r: int)
    ensures -1 <= r < |s|
    ensures r >= 0 ==> s[r] == c
    ensures forall k :: 0 <= k < |s| && (r == -1 || k < r) ==> s[k] != c
  {
    if s == [] then -1
    else if s[0] == c then 0
    else
      var rest := FirstIndexOf(s[1..], c);
      if rest == -1 then -1 else rest + 1
  }

  /** Some character in `s[from..to]` is not a dot. */
  predicate HasNonDot(s: string, from: int, to: int)
    requires 0 <= from && to <= |s|
  {
    exists k :: from <= k < to && s[k] != '.'
  }

  /**
   * `os.path.splitext` (POSIX): the extension starts at the last dot when
   * that dot comes after the last '/' and is preceded, within the last path
   * component, by something other than dots; otherwise there is none.
   */
  function SplitExt(p: string): (r: (string, string))
    ensures r.0 + r.1 == p
    ensures r.1 != [] ==> r.1[0] == '.' && '.' !in r.1[1..] && '/' !in r.1
  {
    var sep := LastIndexOf(p, '/');
    var dot := LastIndexOf(p, '.');
    if dot > sep && HasNonDot(p, sep + 1, dot) then
      assert forall k :: 0 <= k < |p[dot..]| ==> p[dot..][k] == p[dot + k];
      (p[..dot], p[dot..])
    else (p, [])
  }

  /** A name whose last part is a stem with a character other than a dot, then one dotted suffix, splits there. */
  lemma SplitExtOfStemAndSuffix(stem: string, suffix: string)
    requires '/' !in stem && HasNonDot(stem, 0, |stem|)
    requires |suffix| >= 1 && suffix[0] == '.' && '.' !in suffix[1..] && '/' !in suffix
    ensures SplitExt(stem + suffix) == (stem, suffix)
  {
    var p := stem + suffix;
    var sep := LastIndexOf(p, '/');
    var dot := LastIndexOf(p, '.');
    assert dot == |stem| by {
      assert p[|stem|] == '.';
      forall k | |stem| < k < |p| ensures p[k] != '.' {
        assert p[k] == suffix[k - |stem|] == suffix[1..][k - |stem| - 1];
      }
    }
    assert sep == -1 by {
      forall k | 0 <= k < |p| ensures p[k] != '/' {
        if k < |stem| { assert p[k] == stem[k]; } else { assert p[k] == suffix[k - |stem|]; }
      }
    }
    var j :| 0 <= j < |stem| && stem[j] != '.';
    assert p[j] == stem[j];
    assert p[..dot] == stem && p[dot..] == suffix;
  }

  /** A name whose last part is only dots before its last dot, such as ".jpg", has no extension. */
  lemma LeadingDotsAreNoExtension(p: string)
    requires '/' !in p
    requires forall k :: 0 <= k < |p| && k < LastIndexOf(p, '.') ==> p[k] == '.'
    ensures SplitExt(p) == (p, [])
  {
  }

  /**
   * The extension `upload_to_s3` gives a stored file: the original name's,
   * or ".jpg" in the images folder and ".mp4" anywhere else.
   */
  function StoredExtension(originalName: string, folder: string): (ext: string)
    ensures |ext| >= 1 && ext[0] == '.' && '.' !in ext[1..]
    ensures SplitExt(originalName).1 != [] ==> ext == SplitExt(originalName).1
    ensures SplitExt(originalName).1 == [] ==> ext == (if folder == ImagesFolder then ".jpg" else ".mp4")
  {
    var ext := SplitExt(originalName).1;
    if ext != [] then ext
    else if folder == ImagesFolder then ".jpg"
    else ".mp4"
  }

  /** The stored file's name: the timestamp in decimal, then the extension. */
  function StoredFileName(now: nat, ext: string): (name: string)
    ensures |name| > |ext| && name[|name| - |ext|..] == ext
    ensures AllDigits(name[..|name| - |ext|])
  {
    var d := Decimal(now);
    assert (d + ext)[..|d|] == d;
    d + ext
  }

  /** Two stored names are equal only for the same second and the same extension. */
  lemma StoredFileNameInjective(a: nat, extA: string, b: nat, extB: string)
    requires |extA| >= 1 && extA[0] == '.' && |extB| >= 1 && extB[0] == '.'
    requires StoredFileName(a, extA) == StoredFileName(b, extB)
    ensures a == b && extA == extB
  {
    var da, db := Decimal(a), Decimal(b);
    var name := da + extA;
    assert name == db + extB;
    assert |da| == |db|;
    assert da == name[..|da|] == db;
    assert extA == name[|da|..] == extB;
    DecimalInjective(a, b);
  }

  /** `os.path.join(folder, name)` for two POSIX path parts. */
  function PathJoin(folder: string, name: string): (p: string)
    ensures |name| > 0 && name[0] == '/' ==> p == name
    ensures !(|name| > 0 && name[0] == '/') ==> p == JoinPrefix(folder) + name
  {
    if |name| > 0 && name[0] == '/' then name
    else if folder == [] || folder[|folder| - 1] == '/' then folder + name
    else folder + "/" + name
  }

  /** What `os.path.join` puts in front of a relative name: the folder, with a '/' unless it already ends in one. */
  function JoinPrefix(folder: string): string {
    if folder == [] || folder[|folder| - 1] == '/' then folder else folder + "/"
  }

  /** The URL of a file stored by `upload_to_s3`. */
  function MediaUrl(folder: string, name: string): (url: string)
    ensures StartsWith(url, MediaPrefix)
    ensures '\\' !in url
  {
    var url := MediaPrefix + ReplaceBackslashes(PathJoin(folder, name));
    assert url[..|MediaPrefix|] == MediaPrefix;
    url
  }

  /**
   * `split(',', 1)` on a data URL, with both halves unpacked: the header
   * before the first comma and the payload after it; None (the unpacking
   * raises) when there is no comma.
   */
  function DataUrlParts(s: string): (r: Option<(string, string)>)
    ensures r.None? <==> ',' !in s
    ensures r.Some? ==> r.value.0 + "," + r.value.1 == s && ',' !in r.value.0
  {
    var i := FirstIndexOf(s, ',');
    if i == -1 then None
    else
      assert s[..i] + "," + s[i + 1..] == s;
      Some((s[..i], s[i + 1..]))
  }

  /** A header and a payload joined at a comma are split back apart when the header has no comma. */
  lemma DataUrlRoundTrip(header: string, payload: string)
    requires ',' !in header
    ensures DataUrlParts(header + "," + payload) == Some((header, payload))
  {
    var s := header + "," + payload;
    var r := DataUrlParts(s);
    assert s[|header|] == ',';
    assert r.Some?;
    var h := r.value.0;
    assert |h| == |header|;
    assert h == s[..|h|] == header;
    assert r.value.1 == s[|h| + 1..] == payload;
  }

  /** What `upload_to_s3` is given: bytes, or text (possibly a base64 data URL). */
  datatype FileData = Bytes(bytes: seq<Byte>) | Text(text: string)

  /**
   * The bytes that reach the file: the data as given, or the decoded
   * payload of a "data:" text; None when text would be written to the
   * binary file, which raises.
   */
  function WrittenBytes(data: FileData, decode: string -> Option<seq<Byte>>): (r: Option<seq<Byte>>)
    ensures data.Bytes? ==> r == Some(data.bytes)
    ensures data.Text? && r.Some? ==>
      StartsWith(data.text, "data:") && DataUrlParts(data.text).Some?
      && r == decode(DataUrlParts(data.text).value.1)
  {
    match data
    case Bytes(b) => Some(b)
    case Text(s) =>
      if StartsWith(s, "data:") then
        var parts := DataUrlParts(s);
        if parts.Some? then decode(parts.value.1) else None
      else None
  }

  /** The file-system outcomes of one `upload_to_s3` call. */
  datatype StoreIo = StoreIo(folderCreated: bool, written: bool)

  /**
   * `upload_to_s3`: the URL of the stored file, or None when the folder
   * cannot be created, the data cannot be written as bytes, or the write
   * fails.
   */
  function UploadToS3(data: FileData, originalName: string, folder: string, now: nat,
                      io: StoreIo, decode: string -> Option<seq<Byte>>): (url: Option<string>)
    ensures url.Some? <==> io.folderCreated && WrittenBytes(data, decode).Some? && io.written
    ensures url.Some? ==>
      url.value == MediaUrl(folder, StoredFileName(now, StoredExtension(originalName, folder)))
  {
    if !io.folderCreated then None
    else if WrittenBytes(data, decode).None? then None
    else if !io.written then None
    else Some(MediaUrl(folder, StoredFileName(now, StoredExtension(originalName, folder))))
  }

  /** The URL of a stored name: the folder part, the timestamp's digits, then the extension with its backslashes replaced. */
  lemma MediaUrlOfStoredName(folder: string, now: nat, ext: string)
    ensures MediaUrl(folder, StoredFileName(now, ext)) ==
      MediaPrefix + ReplaceBackslashes(JoinPrefix(folder)) + (Decimal(now) + ReplaceBackslashes(ext))
  {
    var d := Decimal(now);
    assert IsDigit(d[0]);
    ReplaceBackslashesAppend(JoinPrefix(folder), d + ext);
    ReplaceBackslashesAppend(d, ext);
    assert forall k :: 0 <= k < |d| ==> IsDigit(d[k]);
    assert ReplaceBackslashes(d) == d;
  }

  /** Uploads in different seconds never get the same URL in one folder. */
  lemma UploadToS3DistinctSeconds(data: FileData, name: string, folder: string, a: nat, b: nat,
                                  io: StoreIo, decode: string -> Option<seq<Byte>>)
    requires UploadToS3(data, name, folder, a, io, decode).Some?
    requires a != b
    ensures UploadToS3(data, name, folder, a, io, decode) != UploadToS3(data, name, folder, b, io, decode)
  {
    var ext := StoredExtension(name, folder);
    var ua := UploadToS3(data, name, folder, a, io, decode);
    var ub := UploadToS3(data, name, folder, b, io, decode);
    if ua == ub {
      MediaUrlOfStoredName(folder, a, ext);
      MediaUrlOfStoredName(folder, b, ext);
      var head := MediaPrefix + ReplaceBackslashes(JoinPrefix(folder));
      var e := ReplaceBackslashes(ext);
      ReplaceBackslashesKeeps(ext, 0);
      assert ua.value == head + (Decimal(a) + e) && ub.value == head + (Decimal(b) + e);
      assert Decimal(a) + e == ua.value[|head|..];
      assert Decimal(b) + e == ub.value[|head|..];
      assert StoredFileName(a, e) == StoredFileName(b, e);
      StoredFileNameInjective(a, e, b, e);
    }
  }

  /** Replacing backslashes works piecewise. */
  lemma ReplaceBackslashesAppend(a: string, b: string)
    ensures ReplaceBackslashes(a + b) == ReplaceBackslashes(a) + ReplaceBackslashes(b)
  {
    var l, r := ReplaceBackslashes(a + b), ReplaceBackslashes(a) + ReplaceBackslashes(b);
    assert |l| == |r|;
    forall k | 0 <= k < |l| ensures l[k] == r[k] {
      if k < |a| { assert (a + b)[k] == a[k]; } else { assert (a + b)[k] == b[k - |a|]; }
    }
  }

  /** The file-system and network outcomes of one `upload_image_to_s3` call. */
  datatype ImageIo = ImageIo(
    folderCreated: bool,    // the folder exists or could be created
    dataSaved: bool,        // a decoded data URL was written
    downloaded: bool,       // the given http(s) URL answered 200 and was written
    fallbackDownloaded: bool) // the seeded fallback answered 200 and was written

  /** The URL of an image stored by `upload_image_to_s3` in second `now`. */
  function LocalImageUrl(folder: string, now: nat): (url: string)
    ensures StartsWith(url, MediaPrefix)
    ensures '\\' !in url
  {
    var raw := MediaPrefix + folder + "/image_" + Decimal(now) + ".jpg";
    assert raw == MediaPrefix + (folder + "/image_" + Decimal(now) + ".jpg");
    ReplaceBackslashesPrefix(MediaPrefix, folder + "/image_" + Decimal(now) + ".jpg");
    ReplaceBackslashes(raw)
  }

  /** The fixed remote image is never a local URL. */
  lemma FallbackIsNotLocal(folder: string, now: nat)
    ensures RemoteFallback != LocalImageUrl(folder, now)
  {
    assert LocalImageUrl(folder, now)[0] == MediaPrefix[0] == '/';
    assert RemoteFallback[0] == 'h';
  }

  /** A data URL that was decoded and saved. */
  predicate DataImageSaved(imageUrl: string, io: ImageIo, decode: string -> Option<seq<Byte>>) {
    StartsWith(imageUrl, "data:image")
    && DataUrlParts(imageUrl).Some?
    && decode(DataUrlParts(imageUrl).value.1).Some?
    && io.dataSaved
  }

  predicate IsHttpUrl(s: string) {
    StartsWith(s, "http://") || StartsWith(s, "https://")
  }

  /**
   * `upload_image_to_s3`: a URL already under /media/ comes back as it is;
   * otherwise the image is saved as "image_<now>.jpg" from the data URL,
   * the http(s) URL or the seeded fallback, tried in that order, and the
   * fixed remote image is the answer when nothing could be saved.
   */
  function UploadImageToS3(imageUrl: string, folder: string, now: nat, io: ImageIo,
                           decode: string -> Option<seq<Byte>>): (url: string)
    ensures |url| > 0
    ensures StartsWith(imageUrl, MediaPrefix) ==> url == imageUrl
    ensures !StartsWith(imageUrl, MediaPrefix) ==>
      url == LocalImageUrl(folder, now) || url == RemoteFallback
    ensures !StartsWith(imageUrl, MediaPrefix) ==>
      (url == LocalImageUrl(folder, now) <==>
        io.folderCreated
        && (DataImageSaved(imageUrl, io, decode) || (IsHttpUrl(imageUrl) && io.downloaded) || io.fallbackDownloaded))
  {
    FallbackIsNotLocal(folder, now);
    if StartsWith(imageUrl, MediaPrefix) then imageUrl
    else if !io.folderCreated then RemoteFallback
    else if DataImageSaved(imageUrl, io, decode) then LocalImageUrl(folder, now)
    else if IsHttpUrl(imageUrl) && io.downloaded then LocalImageUrl(folder, now)
    else if io.fallbackDownloaded then LocalImageUrl(folder, now)
    else RemoteFallback
  }

  /**
   * Every answer other than the fixed remote image is a local URL, and
   * uploading it again hands it back unchanged, whatever the second and
   * the outcomes of that second call.
   */
  lemma UploadImageIdempotent(imageUrl: string, folder: string, now: nat, io: ImageIo,
                              decode: string -> Option<seq<Byte>>,
                              folder2: string, now2: nat, io2: ImageIo)
    ensures var url := UploadImageToS3(imageUrl, folder, now, io, decode);
      url != RemoteFallback ==>
        StartsWith(url, MediaPrefix) && UploadImageToS3(url, folder2, now2, io2, decode) == url
  {
  }

  /** Images stored in different seconds get different URLs in the same folder. */
  lemma LocalImageUrlInjective(folder: string, a: nat, b: nat)
    requires LocalImageUrl(folder, a) == LocalImageUrl(folder, b)
    ensures a == b
  {
    var head := MediaPrefix + folder + "/image_";
    var na, nb := StoredFileName(a, ".jpg"), StoredFileName(b, ".jpg");
    assert MediaPrefix + folder + "/image_" + Decimal(a) + ".jpg" == head + na;
    assert MediaPrefix + folder + "/image_" + Decimal(b) + ".jpg" == head + nb;
    ReplaceBackslashesAppend(head, na);
    ReplaceBackslashesAppend(head, nb);
    DigitsUnchanged(a, ".jpg");
    DigitsUnchanged(b, ".jpg");
    var rh := ReplaceBackslashes(head);
    assert na == (rh + na)[|rh|..];
    assert nb == (rh + nb)[|rh|..];
    StoredFileNameInjective(a, ".jpg", b, ".jpg");
  }

  /** A stored name with a backslash-free extension has nothing to replace. */
  lemma DigitsUnchanged(now: nat, ext: string)
    requires '\\' !in ext
    ensures ReplaceBackslashes(StoredFileName(now, ext)) == StoredFileName(now, ext)
  {
    var d := Decimal(now);
    assert forall k :: 0 <= k < |d| ==> IsDigit(d[k]);
    assert forall k :: 0 <= k < |d + ext| ==> (d + ext)[k] == (if k < |d| then d[k] else ext[k - |d|]);
  }
}

/**
 * `GenerateVideo.post` (ai/views/cbv.py): from a prompt to a stored
 * `VideoPrompt` with five descriptions, five stored images and the
 * placeholder videos, or the error reply that stops it.
 *
 * Everything the request meets outside the program is part of `World`:
 * the generators' oracles, the clock readings of each loop, the outcomes
 * of each image upload and of each placeholder video.
 */
module AiViews {
  import opened Wrappers
  import opened Text
  import AiGpt
  import opened AiStorage

  const NoPrompt: string := "No prompt provided"
  const NoDescriptions: string := "Failed to generate descriptions"
  const NoImages: string := "Failed to generate images"
  const NoUploads: string := "Failed to upload images to S3"
  const NoVideos: string := "Failed to create videos"

  /** The number of images a video prompt has. */
  const ImageCount: nat := 5
  /** `VideoPrompt.category`'s default. */
  const DefaultCategory: string := "comedy"

  /** A row of the `VideoPrompt` table. */
  datatype VideoPrompt = VideoPrompt(
    id: nat,
    prompt: string,
    arrTitles: seq<string>,
    arrImages: seq<string>,
    arrVideos: seq<string>,
    finalVideo: string,
    category: string,
    createdAt: nat)

  /** What the endpoint answers: 201 with the record, an error status with its message, or 500 from an exception. */
  datatype Reply =
    | Created(record: VideoPrompt)
    | Failed(status: int, error: string)
    | Crashed

  /**
   * The outside world of one request. `seedClock(i)` and `uploadClock(i)`
   * are the seconds the view and `upload_image_to_s3` read for image i;
   * `videoClock(i)` the seconds read for video i.
   */
  datatype World = World(
    useMock: bool,
    pick: nat,
    completion: Option<string>,
    dalle: (nat, string) -> Option<string>,
    seedClock: nat -> nat,
    uploadClock: nat -> nat,
    imageIo: nat -> ImageIo,
    decode: string -> Option<seq<Byte>>,
    videoFolderCreated: bool,
    videoClock: nat -> nat,
    videoMade: nat -> bool,
    now: nat)

  /** The picsum URL the view asks for at image position i: seeded by the second plus i. */
  function SeedUrl(stamp: nat): (url: string)
    ensures StartsWith(url, "https://") && !StartsWith(url, MediaPrefix)
  {
    var url := "https://picsum.photos/seed/" + Decimal(stamp) + "/400/300";
    assert url[..8] == "https://";
    assert url[0] == 'h';
    url
  }

  /** The host of the placeholder images. */
  const PlaceholderHost: string := "https://via.placeholder.com/"

  /** The stand-in for image position i (counted from 0): its text is "Image+" and i + 1. */
  function PlaceholderImage(position: nat): (url: string)
    ensures StartsWith(url, PlaceholderHost)
  {
    var url := PlaceholderHost + ("400x300/87CEEB/000000?text=Image+" + Decimal(position + 1));
    assert url[..|PlaceholderHost|] == PlaceholderHost;
    url
  }

  /** The seed of image position i. */
  function SeedStamp(w: World, i: nat): nat {
    w.seedClock(i) + i
  }

  /** Upload i as written: the stored file is named after the second `upload_image_to_s3` reads itself. */
  function UploadAsWritten(w: World, i: nat): (url: string)
    ensures |url| > 0
  {
    UploadImageToS3(SeedUrl(SeedStamp(w, i)), ImagesFolder, w.uploadClock(i), w.imageIo(i), w.decode)
  }

  /** The five image URLs as written. */
  function ImageUrlsAsWritten(w: World): (urls: seq<string>)
    ensures |urls| == ImageCount
    ensures forall i :: 0 <= i < ImageCount ==> urls[i] == UploadAsWritten(w, i)
  {
    seq(ImageCount, i requires 0 <= i < ImageCount => UploadAsWritten(w, i))
  }

  /** The image at position i is saved to a local file (the seeded download or its fallback succeeds). */
  predicate SavedLocally(w: World, i: nat) {
    w.imageIo(i).folderCreated && (w.imageIo(i).downloaded || w.imageIo(i).fallbackDownloaded)
  }

  /** The seconds read at image positions never go backwards. */
  predicate SeedClockMonotone(w: World) {
    forall i, j :: 0 <= i <= j < ImageCount ==> w.seedClock(i) <= w.seedClock(j)
  }

  /**
   * As written, five uploads in the same second all write "image_<t>.jpg":
   * each overwrites the one before, and the record lists one URL five
   * times although every position asked for a different picture.
   */
  lemma SameSecondUploadsShareOneFile(w: World, t: nat)
    requires SeedClockMonotone(w)
    requires forall i :: 0 <= i < ImageCount ==> w.uploadClock(i) == t && SavedLocally(w, i)
    ensures forall i, j :: 0 <= i < j < ImageCount ==> SeedUrl(SeedStamp(w, i)) != SeedUrl(SeedStamp(w, j))
    ensures forall i :: 0 <= i < ImageCount ==> ImageUrlsAsWritten(w)[i] == LocalImageUrl(ImagesFolder, t)
  {
    forall i | 0 <= i < ImageCount ensures ImageUrlsAsWritten(w)[i] == LocalImageUrl(ImagesFolder, t) {
      assert IsHttpUrl(SeedUrl(SeedStamp(w, i)));
    }
    forall i, j | 0 <= i < j < ImageCount ensures SeedUrl(SeedStamp(w, i)) != SeedUrl(SeedStamp(w, j)) {
      SeedUrlInjective(SeedStamp(w, i), SeedStamp(w, j));
    }
  }

  /** Different seeds ask for different pictures. */
  lemma SeedUrlInjective(a: nat, b: nat)
    ensures SeedUrl(a) == SeedUrl(b) ==> a == b
  {
    if SeedUrl(a) == SeedUrl(b) {
      InfixCancel("https://picsum.photos/seed/", Decimal(a), Decimal(b), "/400/300");
      DecimalInjective(a, b);
    }
  }

  /** Upload i as intended: the stored file is named after position i's own seed. */
  function UploadIntended(w: World, i: nat): (url: string)
    ensures |url| > 0
    ensures SavedLocally(w, i) ==> url == LocalImageUrl(ImagesFolder, SeedStamp(w, i))
  {
    var url := UploadImageToS3(SeedUrl(SeedStamp(w, i)), ImagesFolder, SeedStamp(w, i), w.imageIo(i), w.decode);
    assert IsHttpUrl(SeedUrl(SeedStamp(w, i)));
    url
  }

  /** No answer of an upload is a placeholder stand-in: a local URL starts with '/', the remote image with another host. */
  lemma NotPlaceholder(url: string, i: nat, stamp: nat)
    requires url == LocalImageUrl(ImagesFolder, stamp) || url == RemoteFallback
    ensures url != PlaceholderImage(i)
  {
    var p := PlaceholderImage(i);
    assert p[0] == PlaceholderHost[0] == 'h' && p[8] == PlaceholderHost[8] == 'v';
    if url == RemoteFallback {
      assert url[8] == 'p';
    } else {
      assert url[0] == '/';
    }
  }

  /** The loop's choice for position i: the upload's answer, or the placeholder when that answer is empty. */
  function OrPlaceholder(url: string, position: nat): string {
    if |url| > 0 then url else PlaceholderImage(position)
  }

  /** The five image URLs as intended; the placeholder fallback is never taken, since every upload answers. */
  function ImageUrls(w: World): (urls: seq<string>)
    ensures |urls| == ImageCount
    ensures forall i :: 0 <= i < ImageCount ==> urls[i] == UploadIntended(w, i)
  {
    seq(ImageCount, i requires 0 <= i < ImageCount => OrPlaceholder(UploadIntended(w, i), i))
  }

  /** No stored image is its position's placeholder. */
  lemma StoredImagesAreNotPlaceholders(w: World)
    ensures forall i :: 0 <= i < ImageCount ==> ImageUrls(w)[i] != PlaceholderImage(i)
  {
    forall i | 0 <= i < ImageCount ensures ImageUrls(w)[i] != PlaceholderImage(i) {
      var stamp := SeedStamp(w, i);
      assert IsHttpUrl(SeedUrl(stamp));
      NotPlaceholder(UploadIntended(w, i), i, stamp);
    }
  }

  /** As intended, every position saved locally has its own file: no two of their URLs coincide. */
  lemma IntendedUploadsAreDistinct(w: World)
    requires SeedClockMonotone(w)
    ensures forall i, j :: 0 <= i < j < ImageCount && SavedLocally(w, i) && SavedLocally(w, j) ==>
      ImageUrls(w)[i] != ImageUrls(w)[j]
  {
    forall i, j | 0 <= i < j < ImageCount && SavedLocally(w, i) && SavedLocally(w, j)
      ensures ImageUrls(w)[i] != ImageUrls(w)[j]
    {
      assert SeedStamp(w, i) < SeedStamp(w, j);
      if ImageUrls(w)[i] == ImageUrls(w)[j] {
        LocalImageUrlInjective(ImagesFolder, SeedStamp(w, i), SeedStamp(w, j));
      }
    }
  }

  /** The first i + 1 image URLs extend the first i by upload i. */
  lemma ImageUrlsGrow(w: World, i: nat)
    requires i < ImageCount
    ensures ImageUrls(w)[..i + 1] == ImageUrls(w)[..i] + [UploadIntended(w, i)]
  {
    var all := ImageUrls(w);
    var grown := all[..i] + [UploadIntended(w, i)];
    assert |all[..i + 1]| == |grown|;
    forall k | 0 <= k <= i ensures all[..i + 1][k] == grown[k] {
      if k < i { assert grown[k] == all[..i][k]; }
    }
  }

  /**
   * The image loop: one upload per position; an empty answer would be
   * replaced by the position's placeholder, but an upload always answers
   * with a non-empty URL.
   */
  method StoreImages(w: World) returns (urls: seq<string>)
    ensures urls == ImageUrls(w)
  {
    urls := [];
    for i: nat := 0 to ImageCount
      invariant urls == ImageUrls(w)[..i]
    {
      var localUrl := UploadIntended(w, i);
      if |localUrl| > 0 {
        ImageUrlsGrow(w, i);
        urls := urls + [localUrl];
      } else {
        urls := urls + [PlaceholderImage(i)];
      }
    }
  }

  /** The image list fixed at five: the first five entries, then placeholders for missing positions. */
  function Normalized(urls: seq<string>): (r: seq<string>)
    ensures |r| == ImageCount
    ensures forall i :: 0 <= i < |urls| && i < ImageCount ==> r[i] == urls[i]
    ensures forall i :: |urls| <= i < ImageCount ==> r[i] == PlaceholderImage(i)
  {
    seq(ImageCount, i requires 0 <= i < ImageCount => if i < |urls| then urls[i] else PlaceholderImage(i))
  }

  /** A list of five is left as it is, and normalizing twice is normalizing once. */
  lemma NormalizedKeepsFive(urls: seq<string>)
    ensures |urls| == ImageCount ==> Normalized(urls) == urls
    ensures Normalized(Normalized(urls)) == Normalized(urls)
  {
  }

  /** The padding loop or the slice that fixes the list's length at five. */
  method PadOrTruncate(urls: seq<string>) returns (r: seq<string>)
    ensures r == Normalized(urls)
  {
    r := urls;
    if |r| < ImageCount {
      for i: nat := |urls| to ImageCount
        invariant |r| == i
        invariant r[..|urls|] == urls
        invariant forall k :: |urls| <= k < i ==> r[k] == PlaceholderImage(k)
      {
        r := r + [PlaceholderImage(i)];
      }
    } else if |r| > ImageCount {
      r := r[..ImageCount];
    }
  }

  /** The URL of the placeholder video stored for second `stamp`. */
  function VideoUrl(stamp: nat): (url: string)
    ensures StartsWith(url, "/media/videos/placeholder_")
  {
    var url := "/media/videos/placeholder_" + Decimal(stamp) + ".mp4";
    assert url[..|"/media/videos/placeholder_"|] == "/media/videos/placeholder_";
    url
  }

  /** The videos of the first n positions that could be created, in position order. */
  function VideoUrls(w: World, n: nat): (urls: seq<string>)
    ensures |urls| == MadeBefore(w, n) <= n
  {
    if n == 0 then []
    else VideoUrls(w, n - 1) + (if w.videoMade(n - 1) then [VideoUrl(w.videoClock(n - 1) + (n - 1))] else [])
  }

  /** How many of the first n positions got a placeholder video. */
  function MadeBefore(w: World, n: nat): (m: nat)
    ensures m <= n
  {
    if n == 0 then 0 else MadeBefore(w, n - 1) + (if w.videoMade(n - 1) then 1 else 0)
  }

  /**
   * Each created video appears once, at the index given by the number of
   * videos created before it: with the count clause of VideoUrls, the
   * list is exactly one URL per created video, in position order.
   */
  lemma {:induction false} VideoUrlsExact(w: World, n: nat)
    ensures forall i :: 0 <= i < n && w.videoMade(i) ==>
      MadeBefore(w, i) < |VideoUrls(w, n)|
      && VideoUrls(w, n)[MadeBefore(w, i)] == VideoUrl(w.videoClock(i) + i)
  {
    if n > 0 {
      VideoUrlsExact(w, n - 1);
      var before := VideoUrls(w, n - 1);
      var urls := VideoUrls(w, n);
      assert before == urls[..|before|];
      forall i | 0 <= i < n && w.videoMade(i)
        ensures MadeBefore(w, i) < |urls| && urls[MadeBefore(w, i)] == VideoUrl(w.videoClock(i) + i)
      {
        if i < n - 1 {
          assert urls[MadeBefore(w, i)] == before[MadeBefore(w, i)];
        }
      }
    }
  }

  /** There are no videos exactly when no placeholder could be created. */
  lemma {:induction false} VideoUrlsEmptyIff(w: World, n: nat)
    ensures VideoUrls(w, n) == [] <==> forall i :: 0 <= i < n ==> !w.videoMade(i)
  {
    if n > 0 {
      VideoUrlsEmptyIff(w, n - 1);
      var tail := if w.videoMade(n - 1) then [VideoUrl(w.videoClock(n - 1) + (n - 1))] else [];
      assert VideoUrls(w, n) == VideoUrls(w, n - 1) + tail;
      assert |VideoUrls(w, n)| == |VideoUrls(w, n - 1)| + |tail|;
    }
  }

  /** The first video is the one of the first position whose placeholder was created. */
  lemma {:induction false} FirstVideoIsFirstMade(w: World, n: nat, i: nat)
    requires i < n && w.videoMade(i)
    requires forall j :: 0 <= j < i ==> !w.videoMade(j)
    ensures |VideoUrls(w, n)| > 0 && VideoUrls(w, n)[0] == VideoUrl(w.videoClock(i) + i)
  {
    if n - 1 == i {
      VideoUrlsEmptyIff(w, i);
    } else {
      FirstVideoIsFirstMade(w, n - 1, i);
    }
  }

  /**
   * The video loop: for each image position, the folder is made sure of
   * (an exception there ends the request) and the position's video is kept
   * when its placeholder could be created.
   */
  method CreateVideos(w: World, n: nat) returns (urls: Option<seq<string>>)
    ensures urls.None? <==> n > 0 && !w.videoFolderCreated
    ensures urls.Some? ==> urls.value == VideoUrls(w, n)
  {
    var made: seq<string> := [];
    for i: nat := 0 to n
      invariant made == VideoUrls(w, i)
      invariant i > 0 ==> w.videoFolderCreated
    {
      if !w.videoFolderCreated {
        return None;
      }
      var stamp := w.videoClock(i) + i;
      if w.videoMade(i) {
        made := made + [VideoUrl(stamp)];
      }
    }
    urls := Some(made);
  }

  /** `finalVideo`: the first video, or "" when there is none. */
  function FinalVideo(videos: seq<string>): (url: string)
    ensures |videos| > 0 ==> url == videos[0] && url in videos
    ensures |videos| == 0 ==> url == ""
  {
    if |videos| > 0 then videos[0] else ""
  }

  /** A prompt is present when it is given and not empty. */
  predicate HasPrompt(prompt: Option<string>) {
    prompt.Some? && |prompt.value| > 0
  }

  /** The `VideoPrompt` table. */
  class VideoPromptTable {
    var rows: seq<VideoPrompt>
    var nextId: nat

    ghost predicate Valid()
      reads this
    {
      forall k :: 0 <= k < |rows| ==> rows[k].id < nextId
    }

    constructor ()
      ensures Valid() && rows == []
    {
      rows := [];
      nextId := 0;
    }

    /** `VideoPrompt.objects.create`: a new row with the next id, the default category and the current time. */
    method Create(prompt: string, titles: seq<string>, images: seq<string>, videos: seq<string>,
                  finalVideo: string, now: nat)
      returns (row: VideoPrompt)
      requires Valid()
      modifies this
      ensures Valid()
      ensures row == VideoPrompt(old(nextId), prompt, titles, images, videos, finalVideo, DefaultCategory, now)
      ensures rows == old(rows) + [row]
      ensures forall k :: 0 <= k < |old(rows)| ==> old(rows)[k].id != row.id
    {
      row := VideoPrompt(nextId, prompt, titles, images, videos, finalVideo, DefaultCategory, now);
      rows := rows + [row];
      nextId := nextId + 1;
    }
  }

  /**
   * `GenerateVideo.post`. Without a prompt, 400; when the videos folder
   * cannot be made, 500 from the exception; without any video, 500; else
   * the record is stored and returned. The three other error exits are
   * never taken: there are always five descriptions, five generated images
   * and five stored images.
   */
  method GenerateVideo(table: VideoPromptTable, prompt: Option<string>, w: World) returns (reply: Reply)
    requires table.Valid()
    requires w.pick < |AiGpt.MockDescriptions|
    modifies table
    ensures table.Valid()
    ensures !HasPrompt(prompt) ==> reply == Failed(400, NoPrompt) && table.rows == old(table.rows)
    ensures HasPrompt(prompt) && !w.videoFolderCreated ==> reply == Crashed && table.rows == old(table.rows)
    ensures HasPrompt(prompt) && w.videoFolderCreated && VideoUrls(w, ImageCount) == [] ==>
      reply == Failed(500, NoVideos) && table.rows == old(table.rows)
    ensures HasPrompt(prompt) && w.videoFolderCreated && VideoUrls(w, ImageCount) != [] ==>
      var videos := VideoUrls(w, ImageCount);
      var record := VideoPrompt(old(table.nextId), prompt.value, AiGpt.Storyline(w.useMock, w.pick, w.completion),
                                ImageUrls(w), videos, videos[0], DefaultCategory, w.now);
      reply == Created(record) && table.rows == old(table.rows) + [record]
  {
    if !HasPrompt(prompt) {
      return Failed(400, NoPrompt);
    }
    var descriptions := AiGpt.GeneratePhotoDescriptions(w.useMock, w.pick, w.completion);
    if |descriptions| == 0 {
      return Failed(500, NoDescriptions);
    }
    var imageUrls := AiGpt.GenerateImages(descriptions, w.useMock, w.dalle);
    if |imageUrls| == 0 {
      return Failed(500, NoImages);
    }
    var stored := StoreImages(w);
    if |stored| == 0 {
      return Failed(500, NoUploads);
    }
    stored := PadOrTruncate(stored);
    NormalizedKeepsFive(ImageUrls(w));
    var videos := CreateVideos(w, |stored|);
    if videos.None? {
      return Crashed;
    }
    if |videos.value| == 0 {
      return Failed(500, NoVideos);
    }
    var record := table.Create(prompt.value, descriptions, stored, videos.value, FinalVideo(videos.value), w.now);
    reply := Created(record);
  }
}

/** The upload form: file checks on selection, the title taken from the file
    name, the form schema, the submit guard and the simulated progress. */
module Upload {
  import opened Options
  import opened Text

  /** A selected browser `File`: its name, MIME type and size in bytes. */
  datatype File = File(name: string, mimeType: string, size: nat)

  const MaxVideoSize: nat := 500 * 1024 * 1024
  const MaxThumbnailSize: nat := 5 * 1024 * 1024

  const InvalidVideoMessage := "Please upload a valid video file (MP4, AVI, MOV)"
  const VideoTooLargeMessage := "Video file is too large. Please upload a file under 500MB."
  const InvalidImageMessage := "Please upload a valid image file for the thumbnail"
  const ThumbnailTooLargeMessage := "Thumbnail is too large. Please upload an image under 5MB."
  const NoVideoMessage := "Please select a video to upload"

  predicate AcceptableVideo(f: File) {
    Includes(f.mimeType, "video/") && f.size <= MaxVideoSize
  }

  predicate AcceptableThumbnail(f: File) {
    Includes(f.mimeType, "image/") && f.size <= MaxThumbnailSize
  }

  /** The message a video selection sets, or `None` when the file is accepted. */
  function VideoError(f: File): (e: Option<string>)
    ensures e == None <==> AcceptableVideo(f)
    ensures e == Some(InvalidVideoMessage) <==> !Includes(f.mimeType, "video/")
  {
    if !Includes(f.mimeType, "video/") then Some(InvalidVideoMessage)
    else if f.size > MaxVideoSize then Some(VideoTooLargeMessage)
    else None
  }

  /** The message a thumbnail selection sets, or `None` when it is accepted. */
  function ThumbnailError(f: File): (e: Option<string>)
    ensures e == None <==> AcceptableThumbnail(f)
    ensures e == Some(InvalidImageMessage) <==> !Includes(f.mimeType, "image/")
  {
    if !Includes(f.mimeType, "image/") then Some(InvalidImageMessage)
    else if f.size > MaxThumbnailSize then Some(ThumbnailTooLargeMessage)
    else None
  }

  /** The MIME test is "contains", not "starts with", and the size limit is inclusive. */
  lemma VideoChecksAtTheEdges()
    ensures AcceptableVideo(File("clip.mp4", "application/video/x", MaxVideoSize))
    ensures !AcceptableVideo(File("clip.mp4", "video/mp4", MaxVideoSize + 1))
  {
    assert "application/video/x"[12..18] == "video/";
    IncludesIffOccurs("application/video/x", "video/");
    assert OccursAt("application/video/x", "video/", 12);
  }

  // ---------------------------------------------------------------------------
  // Title from the file name: `name.replace(/\.[^/.]+$/, "")`
  // ---------------------------------------------------------------------------

  /** A suffix the pattern `\.[^/.]+$` matches: a dot and at least one
      character that is neither a dot nor a slash. */
  predicate IsExtension(e: string) {
    |e| >= 2 && e[0] == '.' && forall i :: 1 <= i < |e| ==> e[i] != '.' && e[i] != '/'
  }

  /** How many characters at the end of `s` are neither `.` nor `/`. */
  function TrailingPlain(s: string): (n: nat)
    ensures n <= |s|
    ensures forall i :: |s| - n <= i < |s| ==> s[i] != '.' && s[i] != '/'
    ensures n < |s| ==> s[|s| - n - 1] == '.' || s[|s| - n - 1] == '/'
  {
    if s == [] || s[|s| - 1] == '.' || s[|s| - 1] == '/' then 0
    else TrailingPlain(s[..|s| - 1]) + 1
  }

  function StripExtension(name: string): string {
    var n := TrailingPlain(name);
    if n >= 1 && n < |name| && name[|name| - n - 1] == '.' then name[..|name| - n - 1] else name
  }

  /** The title is `name` with its extension removed: a prefix of `name`; what
      was removed is an extension; nothing is removed when `name` ends in no
      extension. */
  lemma StripExtensionSpec(name: string)
    ensures |StripExtension(name)| <= |name| && StripExtension(name) == name[..|StripExtension(name)|]
    ensures StripExtension(name) != name ==> IsExtension(name[|StripExtension(name)|..])
    ensures StripExtension(name) == name ==> forall k :: 0 <= k <= |name| ==> !IsExtension(name[k..])
  {
    var n := TrailingPlain(name);
    if StripExtension(name) == name {
      forall k | 0 <= k <= |name|
        ensures !IsExtension(name[k..])
      {
      }
    } else {
      var e := name[|name| - n - 1..];
      assert forall i :: 1 <= i < |e| ==> e[i] == name[|name| - n - 1 + i];
    }
  }

  /** Removing the extension from `base + ext` gives back `base`. */
  lemma StripExtensionOfJoined(base: string, ext: string)
    requires IsExtension(ext)
    ensures StripExtension(base + ext) == base
  {
    var name := base + ext;
    TrailingPlainOfPlain(base, ext[1..]);
    assert name == (base + ".") + ext[1..];
  }

  lemma {:induction false} TrailingPlainOfPlain(base: string, plain: string)
    requires forall i :: 0 <= i < |plain| ==> plain[i] != '.' && plain[i] != '/'
    ensures TrailingPlain(base + "." + plain) == |plain|
    decreases |plain|
  {
    var name := base + "." + plain;
    if plain != [] {
      assert name[..|name| - 1] == base + "." + plain[..|plain| - 1];
      TrailingPlainOfPlain(base, plain[..|plain| - 1]);
    } else {
      assert name[|name| - 1] == '.';
    }
  }

  lemma StripExtensionExamples()
    ensures StripExtension("clip.mp4") == "clip"
    ensures StripExtension("archive.tar.gz") == "archive.tar"
    ensures StripExtension("clip") == "clip"
    ensures StripExtension("clip.") == "clip."
  {
    StripExtensionOfJoined("clip", ".mp4");
    assert "clip" + ".mp4" == "clip.mp4";
    StripExtensionOfJoined("archive.tar", ".gz");
    assert "archive.tar" + ".gz" == "archive.tar.gz";
  }

  // ---------------------------------------------------------------------------
  // The form schema
  // ---------------------------------------------------------------------------

  const TitleTooShortMessage := "Title must be at least 3 characters"
  const TitleTooLongMessage := "Title cannot exceed 100 characters"
  const DescriptionTooLongMessage := "Description cannot exceed 500 characters"

  /** The messages the schema reports for the title and description fields. */
  function FieldErrors(title: string, description: string): (errors: seq<string>)
    ensures errors == [] <==> 3 <= |title| <= 100 && |description| <= 500
    ensures TitleTooShortMessage in errors <==> |title| < 3
    ensures TitleTooLongMessage in errors <==> |title| > 100
    ensures DescriptionTooLongMessage in errors <==> |description| > 500
  {
    (if |title| < 3 then [TitleTooShortMessage] else [])
    + (if |title| > 100 then [TitleTooLongMessage] else [])
    + (if |description| > 500 then [DescriptionTooLongMessage] else [])
  }

  // ---------------------------------------------------------------------------
  // Simulated progress
  // ---------------------------------------------------------------------------

  /** One interval tick with `random` = `Math.random()`: the new progress and
      whether the tick stopped the interval. */
  function NextProgress(prev: real, random: real): (r: (real, bool))
    requires 0.0 <= random < 1.0
    ensures r.1 <==> r.0 == 100.0
    ensures r.1 <==> prev + random * 10.0 >= 100.0
    ensures !r.1 ==> r.0 == prev + random * 10.0
    ensures prev < 100.0 ==> prev <= r.0 <= 100.0
    ensures r.0 < prev + 10.0 || r.0 == 100.0
  {
    var next := prev + random * 10.0;
    if next >= 100.0 then (100.0, true) else (next, false)
  }

  predicate AllRandom(draws: seq<real>) {
    forall i :: 0 <= i < |draws| ==> 0.0 <= draws[i] < 1.0
  }

  /** The progress values the ticks produce from `start`, one per draw, up to
      and including the tick that reaches 100. */
  function Progression(start: real, draws: seq<real>): seq<real>
    requires AllRandom(draws)
    decreases |draws|
  {
    if draws == [] then []
    else
      var (p, done) := NextProgress(start, draws[0]);
      if done then [p]
      else
        assert AllRandom(draws[1..]) by {
          forall i | 0 <= i < |draws| - 1 ensures 0.0 <= draws[1..][i] < 1.0 {
            assert draws[1..][i] == draws[i + 1];
          }
        }
        [p] + Progression(p, draws[1..])
  }

  /** The progress before tick `i` of a trace that started at `start`. */
  function Before(start: real, trace: seq<real>, i: nat): real
    requires i <= |trace|
  {
    if i == 0 then start else trace[i - 1]
  }

  /** Each tick adds ten times its draw to the progress before it, and the
      tick that would reach or pass 100 shows 100. */
  lemma {:induction false} ProgressionSteps(start: real, draws: seq<real>)
    requires AllRandom(draws)
    ensures var trace := Progression(start, draws);
      && |trace| <= |draws|
      && (forall i :: 0 <= i < |trace| ==>
            (trace[i] == 100.0 <==> Before(start, trace, i) + 10.0 * draws[i] >= 100.0))
      && (forall i :: 0 <= i < |trace| && trace[i] < 100.0 ==>
            trace[i] == Before(start, trace, i) + 10.0 * draws[i])
    decreases |draws|
  {
    if draws != [] {
      ProgressionUnfold(start, draws);
      var (p, done) := NextProgress(start, draws[0]);
      if !done {
        ProgressionSteps(p, draws[1..]);
        var rest := Progression(p, draws[1..]);
        var trace := [p] + rest;
        forall i | 1 <= i < |trace|
          ensures trace[i] == rest[i - 1] && draws[i] == draws[1..][i - 1]
          ensures Before(start, trace, i) == Before(p, rest, i - 1)
        {
        }
      }
    }
  }

  /** From a progress below 100, the ticks never lower it and never pass 100;
      only the last tick can reach 100, and the interval stops early only by
      reaching it. */
  lemma {:induction false} ProgressionBounds(start: real, draws: seq<real>)
    requires 0.0 <= start < 100.0 && AllRandom(draws)
    ensures var trace := Progression(start, draws);
      && (forall i :: 0 <= i < |trace| ==> start <= trace[i] <= 100.0)
      && (forall i, j :: 0 <= i < j < |trace| ==> trace[i] <= trace[j])
      && (forall i :: 0 <= i < |trace| - 1 ==> trace[i] < 100.0)
      && (|trace| < |draws| ==> trace != [] && trace[|trace| - 1] == 100.0)
    decreases |draws|
  {
    if draws != [] {
      ProgressionUnfold(start, draws);
      var (p, done) := NextProgress(start, draws[0]);
      if !done {
        ProgressionBounds(p, draws[1..]);
        var rest := Progression(p, draws[1..]);
        assert Progression(start, draws) == [p] + rest;
      }
    }
  }

  /** The whole run of the interval from a progress below 100: each tick adds
      ten times its draw to the progress before it, and the tick that would
      reach or pass 100 shows 100 and is the last; the ticks never lower
      progress and never pass 100, and the interval stops early only by
      reaching 100. */
  lemma ProgressionSpec(start: real, draws: seq<real>)
    requires 0.0 <= start < 100.0 && AllRandom(draws)
    ensures var trace := Progression(start, draws);
      && |trace| <= |draws|
      && (forall i :: 0 <= i < |trace| ==>
            (trace[i] == 100.0 <==> Before(start, trace, i) + 10.0 * draws[i] >= 100.0))
      && (forall i :: 0 <= i < |trace| && trace[i] < 100.0 ==>
            trace[i] == Before(start, trace, i) + 10.0 * draws[i])
      && (forall i :: 0 <= i < |trace| ==> start <= trace[i] <= 100.0)
      && (forall i, j :: 0 <= i < j < |trace| ==> trace[i] <= trace[j])
      && (forall i :: 0 <= i < |trace| - 1 ==> trace[i] < 100.0)
      && (|trace| < |draws| ==> trace != [] && trace[|trace| - 1] == 100.0)
  {
    ProgressionSteps(start, draws);
    ProgressionBounds(start, draws);
  }

  lemma ProgressionUnfold(start: real, draws: seq<real>)
    requires AllRandom(draws) && draws != []
    ensures AllRandom(draws[1..])
    ensures var (p, done) := NextProgress(start, draws[0]);
      Progression(start, draws) == if done then [p] else [p] + Progression(p, draws[1..])
  {
    assert forall i :: 0 <= i < |draws| - 1 ==> draws[1..][i] == draws[i + 1];
  }

  /** One more tick of a run that has produced `done` from `start` and now
      stands at `p` before draw `i`. */
  lemma ProgressionStep(start: real, draws: seq<real>, done: seq<real>, p: real, i: nat)
    requires AllRandom(draws) && i < |draws|
    requires Progression(start, draws) == done + Progression(p, draws[i..])
    ensures AllRandom(draws[i + 1..])
    ensures var (q, stop) := NextProgress(p, draws[i]);
      Progression(start, draws) == (done + [q]) + (if stop then [] else Progression(q, draws[i + 1..]))
  {
    ProgressionUnfold(p, draws[i..]);
    assert draws[i..][0] == draws[i] && draws[i..][1..] == draws[i + 1..];
  }

  // ---------------------------------------------------------------------------
  // The component state
  // ---------------------------------------------------------------------------

  class UploadForm {
    var videoFile: Option<File>
    var thumbnailFile: Option<File>
    var thumbnailPreview: Option<string>
    var uploadProgress: real
    var error: Option<string>
    var title: string
    var description: string
    var tags: string
    /** The parent page's flag, set through `setIsUploading`. */
    var isUploading: bool
    /** The progress interval is running. */
    var ticking: bool
    /** The 1.5 s processing timeout is pending. */
    var processing: bool
    /** The ids passed to `onUploadSuccess`, in order. */
    var uploadedIds: seq<string>

    ghost predicate Valid()
      reads this
    {
      && (videoFile.Some? ==> AcceptableVideo(videoFile.value))
      && (thumbnailFile.Some? ==> AcceptableThumbnail(thumbnailFile.value))
      && 0.0 <= uploadProgress <= 100.0
      && !(ticking && processing)
      && (ticking ==> uploadProgress < 100.0)
      && (processing ==> uploadProgress == 100.0)
      && (isUploading <==> ticking || processing)
    }

    constructor ()
      ensures Valid()
      ensures videoFile == None && thumbnailFile == None && thumbnailPreview == None
      ensures uploadProgress == 0.0 && error == None
      ensures title == "" && description == "" && tags == ""
      ensures !isUploading && !ticking && !processing && uploadedIds == []
    {
      videoFile, thumbnailFile, thumbnailPreview := None, None, None;
      uploadProgress, error := 0.0, None;
      title, description, tags := "", "", "";
      isUploading, ticking, processing := false, false, false;
      uploadedIds := [];
    }

    /** `handleVideoSelect`; `file` is `None` when the dialog returned no file. */
    method SelectVideo(file: Option<File>)
      requires Valid()
      modifies this`videoFile, this`error, this`title
      ensures Valid()
      ensures file == None ==> videoFile == old(videoFile) && error == old(error) && title == old(title)
      ensures file.Some? && VideoError(file.value).Some? ==>
        error == VideoError(file.value) && videoFile == old(videoFile) && title == old(title)
      ensures file.Some? && VideoError(file.value) == None ==>
        videoFile == file && error == None
        && title == (if old(title) == "" then StripExtension(file.value.name) else old(title))
    {
      if file == None {
        return;
      }
      var f := file.value;
      if !Includes(f.mimeType, "video/") {
        error := Some(InvalidVideoMessage);
        return;
      }
      if f.size > MaxVideoSize {
        error := Some(VideoTooLargeMessage);
        return;
      }
      videoFile := file;
      error := None;
      if title == "" {
        title := StripExtension(f.name);
      }
    }

    /** `handleThumbnailSelect`; the preview arrives later, see `PreviewLoaded`. */
    method SelectThumbnail(file: Option<File>)
      requires Valid()
      modifies this`thumbnailFile, this`error
      ensures Valid()
      ensures file == None ==> thumbnailFile == old(thumbnailFile) && error == old(error)
      ensures file.Some? && ThumbnailError(file.value).Some? ==>
        error == ThumbnailError(file.value) && thumbnailFile == old(thumbnailFile)
      ensures file.Some? && ThumbnailError(file.value) == None ==>
        thumbnailFile == file && error == None
    {
      if file == None {
        return;
      }
      var f := file.value;
      if !Includes(f.mimeType, "image/") {
        error := Some(InvalidImageMessage);
        return;
      }
      if f.size > MaxThumbnailSize {
        error := Some(ThumbnailTooLargeMessage);
        return;
      }
      thumbnailFile := file;
      error := None;
    }

    /** The file reader's `onload`: the data URL becomes the preview. */
    method PreviewLoaded(dataUrl: string)
      modifies this`thumbnailPreview
      ensures thumbnailPreview == Some(dataUrl)
    {
      thumbnailPreview := Some(dataUrl);
    }

    /** `handleRemoveVideo`. */
    method RemoveVideo()
      requires Valid()
      modifies this`videoFile
      ensures Valid() && videoFile == None
    {
      videoFile := None;
    }

    /** `handleRemoveThumbnail`. */
    method RemoveThumbnail()
      requires Valid()
      modifies this`thumbnailFile, this`thumbnailPreview
      ensures Valid() && thumbnailFile == None && thumbnailPreview == None
    {
      thumbnailFile := None;
      thumbnailPreview := None;
    }

    /** The title, description and tags inputs. */
    method SetFields(newTitle: string, newDescription: string, newTags: string)
      modifies this`title, this`description, this`tags
      ensures title == newTitle && description == newDescription && tags == newTags
    {
      title, description, tags := newTitle, newDescription, newTags;
    }

    /** The form's submit: the schema first, then `onSubmit`, which requires a
        video and starts the simulated upload. The page disables every way to
        submit while an upload runs. */
    method Submit()
      requires Valid() && !isUploading
      modifies this
      ensures Valid()
      ensures FieldErrors(old(title), old(description)) != [] ==>
        error == old(error) && !isUploading && uploadProgress == old(uploadProgress)
      ensures FieldErrors(old(title), old(description)) == [] && old(videoFile) == None ==>
        error == Some(NoVideoMessage) && !isUploading && uploadProgress == old(uploadProgress)
      ensures FieldErrors(old(title), old(description)) == [] && old(videoFile).Some? ==>
        error == None && isUploading && ticking && uploadProgress == 0.0
      ensures videoFile == old(videoFile) && thumbnailFile == old(thumbnailFile)
      ensures thumbnailPreview == old(thumbnailPreview) && uploadedIds == old(uploadedIds)
      ensures title == old(title) && description == old(description) && tags == old(tags)
    {
      if FieldErrors(title, description) != [] {
        return;
      }
      if videoFile == None {
        error := Some(NoVideoMessage);
        return;
      }
      error := None;
      isUploading := true;
      uploadProgress := 0.0;
      ticking := true;
    }

    /** One firing of the 500 ms interval, with `random` = `Math.random()`. */
    method Tick(random: real)
      requires Valid() && 0.0 <= random < 1.0
      modifies this`uploadProgress, this`ticking, this`processing
      ensures Valid()
      ensures !old(ticking) ==>
        uploadProgress == old(uploadProgress) && ticking == old(ticking) && processing == old(processing)
      ensures old(ticking) ==>
        var (p, done) := NextProgress(old(uploadProgress), random);
        uploadProgress == p && ticking == !done && processing == done
      ensures old(uploadProgress) <= uploadProgress
    {
      if ticking {
        var (p, done) := NextProgress(uploadProgress, random);
        uploadProgress := p;
        if done {
          ticking := false;
          processing := true;
        }
      }
    }

    /** The interval running over the draws `Math.random()` gives it, until it
        is cleared or the draws run out. */
    method RunInterval(draws: seq<real>)
      requires Valid() && AllRandom(draws)
      modifies this`uploadProgress, this`ticking, this`processing
      ensures Valid()
      ensures !old(ticking) ==>
        uploadProgress == old(uploadProgress) && ticking == old(ticking) && processing == old(processing)
      ensures old(ticking) ==>
        var trace := Progression(old(uploadProgress), draws);
        && (trace != [] ==> uploadProgress == trace[|trace| - 1])
        && (trace == [] ==> uploadProgress == old(uploadProgress))
        && (processing <==> trace != [] && trace[|trace| - 1] == 100.0)
        && (ticking <==> !processing)
    {
      if !ticking {
        return;
      }
      ghost var start := uploadProgress;
      ghost var done: seq<real> := [];
      var i := 0;
      while i < |draws| && ticking
        invariant 0 <= i <= |draws| && Valid()
        invariant ticking <==> !processing
        invariant done != [] ==> uploadProgress == done[|done| - 1]
        invariant done == [] ==> uploadProgress == start
        invariant ticking ==> Progression(start, draws) == done + Progression(uploadProgress, draws[i..])
        invariant !ticking ==> Progression(start, draws) == done && done != [] && uploadProgress == 100.0
      {
        ghost var before := uploadProgress;
        Tick(draws[i]);
        ProgressionStep(start, draws, done, before, i);
        done := done + [uploadProgress];
        i := i + 1;
      }
      if ticking {
        assert draws[i..] == [];
      }
    }

    /** The processing timeout: the upload ends and the parent receives an id
        starting with "vid-"; `suffix` stands for the random base-36 digits. */
    method FinishProcessing(suffix: string)
      requires Valid()
      modifies this`processing, this`isUploading, this`uploadedIds
      ensures Valid()
      ensures old(processing) ==>
        !processing && !isUploading && uploadedIds == old(uploadedIds) + ["vid-" + suffix]
      ensures !old(processing) ==>
        processing == old(processing) && isUploading == old(isUploading) && uploadedIds == old(uploadedIds)
    {
      if processing {
        processing := false;
        isUploading := false;
        uploadedIds := uploadedIds + ["vid-" + suffix];
      }
    }
  }
}

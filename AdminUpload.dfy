/** The admin page that uploads a video solution: the file validators, the
    duration display and the `uploading`/`uploadProgress` flags of a
    submission. */
module AdminUpload {
  import opened Maybe
  import opened Text

  /** The selected file's MIME type and size in bytes. */
  datatype VideoFile = VideoFile(mimeType: string, size: nat)

  /** 100 MiB, the largest accepted size (inclusive). */
  const MaxVideoSize: nat := 100 * 1024 * 1024

  const SelectVideoText := "Please select a video file"

  /** The `isVideo` validator; `None` means it passes. */
  function IsVideo(file: Option<VideoFile>): (e: Option<string>)
    ensures file.None? ==> e == Some(SelectVideoText)
    ensures file.Some? ==> (e.None? <==> StartsWith(file.value.mimeType, "video/"))
    ensures file.Some? && e.Some? ==> e.value == "Please select a valid video file"
  {
    match file
    case None => Some(SelectVideoText)
    case Some(f) =>
      if StartsWith(f.mimeType, "video/") then None else Some("Please select a valid video file")
  }

  /** The `fileSize` validator; with no file it passes. */
  function FileSize(file: Option<VideoFile>): (e: Option<string>)
    ensures file.None? ==> e.None?
    ensures file.Some? ==> (e.None? <==> file.value.size <= 104857600)
    ensures e.Some? ==> e.value == "File size must be less than 100MB"
  {
    match file
    case None => None
    case Some(f) => if f.size <= MaxVideoSize then None else Some("File size must be less than 100MB")
  }

  /** The message the form shows for the file field: `required` first, then
      the validators in their order. */
  function VideoFieldError(file: Option<VideoFile>): (e: Option<string>)
    ensures e.None? <==> file.Some? && StartsWith(file.value.mimeType, "video/")
                         && file.value.size <= MaxVideoSize
  {
    if file.None? then Some(SelectVideoText)
    else if IsVideo(file).Some? then IsVideo(file)
    else FileSize(file)
  }

  /** `formatDuration` on whole seconds: minutes, a colon, and the seconds
      padded to two digits. */
  function FormatDuration(seconds: nat): (r: string)
    ensures |r| >= 4 && r[|r| - 3] == ':'
    ensures AllDigits(r[..|r| - 3]) && AllDigits(r[|r| - 2..])
  {
    var mins := seconds / 60;
    var secs := seconds % 60;
    SecondsPadToTwoDigits(secs);
    var m, p := NatToString(mins), PadStart(NatToString(secs), 2, '0');
    assert (m + ":" + p)[..|m|] == m;
    assert (m + ":" + p)[|m| + 1..] == p;
    m + ":" + p
  }

  /** Reads an `m:ss` text back into minutes and seconds. */
  function ParseClock(t: string): Option<(nat, nat)> {
    var i := IndexOf(t, ':');
    if i < 1 then None
    else
      var m, s := t[..i], t[i + 1..];
      if AllDigits(m) && |s| == 2 && AllDigits(s) then Some((ParseDigits(m), ParseDigits(s)))
      else None
  }

  /** The seconds of a duration fit in two digits. */
  lemma {:induction false} SecondsPadToTwoDigits(secs: nat)
    requires secs < 60
    ensures var p := PadStart(NatToString(secs), 2, '0');
      |p| == 2 && AllDigits(p) && ParseDigits(p) == secs
  {
    var n := NatToString(secs);
    ParseNatToString(secs);
    if secs < 10 {
      var p := PadStart(n, 2, '0');
      assert p == ['0'] + n;
      assert p[..1] == ['0'];
      assert ParseDigits(p[..1]) == 0 by {
        assert p[..1][..0] == [];
      }
    } else {
      assert NatToString(secs / 10) == [DigitChar(secs / 10)];
    }
  }

  /** `formatDuration` can be read back: its text gives the minutes and the
      seconds, which are below 60 and add up to the duration. */
  lemma FormatDurationRoundTrip(seconds: nat)
    ensures ParseClock(FormatDuration(seconds)) == Some((seconds / 60, seconds % 60))
    ensures seconds % 60 < 60 && (seconds / 60) * 60 + seconds % 60 == seconds
  {
    var m := NatToString(seconds / 60);
    var p := PadStart(NatToString(seconds % 60), 2, '0');
    var t := FormatDuration(seconds);
    SecondsPadToTwoDigits(seconds % 60);
    ParseNatToString(seconds / 60);
    assert t == m + [':'] + p;
    assert t[|m|] == ':';
    assert forall j :: 0 <= j < |m| ==> t[j] == m[j];
    assert IndexOf(t, ':') == |m|;
    assert t[..|m|] == m;
    assert t[|m| + 1..] == p;
  }

  /** Different durations are shown differently. */
  lemma FormatDurationInjective(a: nat, b: nat)
    requires FormatDuration(a) == FormatDuration(b)
    ensures a == b
  {
    FormatDurationRoundTrip(a);
    FormatDurationRoundTrip(b);
  }

  /** The saved video record the server returns. */
  datatype VideoSolution = VideoSolution(publicId: string, secureUrl: string, duration: nat)

  /** How the three requests of a submission end: saved, or a thrown error
      with the server's `message`, if any. */
  datatype UploadOutcome = Saved(video: VideoSolution) | Failed(serverMessage: Option<string>)

  /** `err.response?.data?.message || 'Upload failed. Please try again.'`. */
  function UploadErrorText(serverMessage: Option<string>): string {
    OrElse(serverMessage, "Upload failed. Please try again.")
  }

  /** The form and the page's upload flags. */
  class UploadForm {
    var selectedFile: Option<VideoFile>
    var fieldError: Option<string>
    var rootError: Option<string>
    var uploading: bool
    var uploadProgress: nat
    var uploadedVideo: Option<VideoSolution>

    constructor ()
      ensures selectedFile == None && fieldError == None && rootError == None
      ensures !uploading && uploadProgress == 0 && uploadedVideo == None
    {
      selectedFile := None;
      fieldError := None;
      rootError := None;
      uploading := false;
      uploadProgress := 0;
      uploadedVideo := None;
    }

    /** Choosing a file; the file input is disabled while uploading. */
    method Select(file: Option<VideoFile>)
      requires !uploading
      modifies this`selectedFile
      ensures selectedFile == file
    {
      selectedFile := file;
    }

    /** Pressing the upload button, up to the first request: the button is
        disabled while uploading or with no file; the validators then run;
        a valid file starts the upload with the flags set and errors cleared. */
    method BeginSubmit() returns (started: bool)
      modifies this
      ensures selectedFile == old(selectedFile) && uploadedVideo == old(uploadedVideo)
      ensures started <==> !old(uploading) && VideoFieldError(old(selectedFile)).None?
      ensures started ==> uploading && uploadProgress == 0 && fieldError == None && rootError == None
      ensures !started && (old(uploading) || old(selectedFile).None?) ==>
        uploading == old(uploading) && uploadProgress == old(uploadProgress)
        && fieldError == old(fieldError) && rootError == old(rootError)
      ensures !started && !old(uploading) && old(selectedFile).Some? ==>
        fieldError == VideoFieldError(old(selectedFile))
        && uploading == old(uploading) && uploadProgress == old(uploadProgress)
        && rootError == old(rootError)
    {
      if uploading || selectedFile.None? {
        return false;
      }
      fieldError := VideoFieldError(selectedFile);
      if fieldError.Some? {
        return false;
      }
      uploading := true;
      uploadProgress := 0;
      fieldError := None;
      rootError := None;
      started := true;
    }

    /** The rest of `onSubmit`: a saved video is recorded and the form reset;
        a failure sets the form's root error; both end with the flags reset. */
    method FinishSubmit(outcome: UploadOutcome)
      requires uploading
      modifies this
      ensures !uploading && uploadProgress == 0
      ensures outcome.Saved? ==>
        uploadedVideo == Some(outcome.video) && selectedFile == None
        && fieldError == None && rootError == None
      ensures outcome.Failed? ==>
        rootError == Some(UploadErrorText(outcome.serverMessage))
        && uploadedVideo == old(uploadedVideo) && selectedFile == old(selectedFile)
        && fieldError == old(fieldError)
    {
      match outcome {
        case Saved(video) =>
          uploadedVideo := Some(video);
          selectedFile := None;
          fieldError := None;
          rootError := None;
        case Failed(serverMessage) =>
          rootError := Some(UploadErrorText(serverMessage));
      }
      uploading := false;
      uploadProgress := 0;
    }
  }
}

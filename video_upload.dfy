/**
  The upload box: the drag highlight, the error line, and the check a dropped or picked
  file must pass before it is handed to the parent through `onVideoSelect`.
 */
module VideoUpload {
  import opened Wrappers
  import opened Text
  import opened FormState

  /** The 100 MB limit, `100 * 1024 * 1024` bytes. */
  const MaxSize: nat := 104857600
  const Mp4Prefix: string := "video/mp4"
  const Mp4Error: string := "Please upload an MP4 video file only."
  const SizeError: string := "File size must be less than 100MB."

  /** The checks of `validateAndSetFile`, in order: the error it reports, or `None` when the
      file is accepted. The type test comes first; the size test is a strict `>`. */
  function Validate(file: VideoFile): (r: Option<string>)
    ensures r.None? <==> StartsWith(file.mimeType, Mp4Prefix) && file.size <= MaxSize
    ensures r == Some(Mp4Error) <==> !StartsWith(file.mimeType, Mp4Prefix)
    ensures r == Some(SizeError) <==> StartsWith(file.mimeType, Mp4Prefix) && file.size > MaxSize
  {
    if !StartsWith(file.mimeType, Mp4Prefix) then Some(Mp4Error)
    else if file.size > MaxSize then Some(SizeError)
    else None
  }

  /** A file of exactly 100 MB is accepted and one byte more is not; a type that merely
      starts with `video/mp4` passes; a file that is both too large and not MP4 gets the
      type error. */
  lemma ValidateBoundaries(name: string, rest: string, size: nat)
    ensures Validate(VideoFile(name, Mp4Prefix + rest, MaxSize)) == None
    ensures Validate(VideoFile(name, Mp4Prefix + rest, MaxSize + 1)) == Some(SizeError)
    ensures Validate(VideoFile(name, "video/webm", size)) == Some(Mp4Error)
  {
    assert (Mp4Prefix + rest)[..|Mp4Prefix|] == Mp4Prefix;
    assert "video/webm"[..9] != Mp4Prefix by {
      assert "video/webm"[..9][6] == 'w';
    }
  }

  class Uploader {
    /** The drag highlight. */
    var dragActive: bool
    /** The error line under the box. */
    var uploadError: Option<string>
    /** The parent's selection, which only `onVideoSelect` changes. */
    var selectedVideo: Option<VideoFile>
    /** Every call of `onVideoSelect`, in order. */
    var selections: seq<Option<VideoFile>>

    /** The selection is always a file that passed the checks, and it is the one last handed
        to the parent. */
    ghost predicate Valid()
      reads this
    {
      && (selectedVideo.Some? ==> Validate(selectedVideo.value).None?)
      && (selections != [] ==> selectedVideo == selections[|selections| - 1])
    }

    constructor ()
      ensures Valid()
      ensures !dragActive && uploadError == None && selectedVideo == None && selections == []
    {
      dragActive := false;
      uploadError := None;
      selectedVideo := None;
      selections := [];
    }

    /** `onVideoSelect`: the parent's setter. */
    method Select(file: Option<VideoFile>)
      modifies this`selectedVideo, this`selections
      ensures selectedVideo == file && selections == old(selections) + [file]
    {
      selectedVideo := file;
      selections := selections + [file];
    }

    /** `validateAndSetFile`: a rejected file sets its one error and leaves the selection
        alone; an accepted file is handed to the parent once and leaves the error alone. */
    method ValidateAndSetFile(file: VideoFile)
      requires Valid()
      modifies this
      ensures Valid()
      ensures dragActive == old(dragActive)
      ensures Validate(file).Some? ==>
                uploadError == Validate(file) && selectedVideo == old(selectedVideo) && selections == old(selections)
      ensures Validate(file).None? ==>
                uploadError == old(uploadError) && selectedVideo == Some(file) && selections == old(selections) + [Some(file)]
    {
      if !StartsWith(file.mimeType, Mp4Prefix) {
        uploadError := Some(Mp4Error);
        return;
      }
      if file.size > MaxSize {
        uploadError := Some(SizeError);
        return;
      }
      Select(Some(file));
    }

    /** `handleDrag`, bound to drag-enter, drag-leave and drag-over: entering or moving over
        the box lights it, leaving it turns the light off, any other event changes nothing. */
    method HandleDrag(eventType: string)
      modifies this`dragActive
      ensures eventType == "dragenter" || eventType == "dragover" ==> dragActive
      ensures eventType == "dragleave" ==> !dragActive
      ensures eventType != "dragenter" && eventType != "dragover" && eventType != "dragleave" ==>
                dragActive == old(dragActive)
    {
      if eventType == "dragenter" || eventType == "dragover" {
        dragActive := true;
      } else if eventType == "dragleave" {
        dragActive := false;
      }
    }

    /** `handleDrop`: the light goes off, the previous error is cleared, and only the first
        dropped file, if any, is checked. */
    method HandleDrop(files: seq<VideoFile>)
      requires Valid()
      modifies this
      ensures Valid()
      ensures !dragActive
      ensures files == [] ==> uploadError == None && selectedVideo == old(selectedVideo) && selections == old(selections)
      ensures files != [] ==> uploadError == Validate(files[0])
      ensures files != [] && Validate(files[0]).Some? ==> selections == old(selections) && selectedVideo == old(selectedVideo)
      ensures files != [] && Validate(files[0]).None? ==> selections == old(selections) + [Some(files[0])]
    {
      dragActive := false;
      uploadError := None;
      if |files| > 0 {
        ValidateAndSetFile(files[0]);
      }
    }

    /** `handleChange` of the file input: the previous error is cleared and only the first
        picked file, if any, is checked; the drag light is not touched. */
    method HandleChange(files: seq<VideoFile>)
      requires Valid()
      modifies this
      ensures Valid()
      ensures dragActive == old(dragActive)
      ensures files == [] ==> uploadError == None && selectedVideo == old(selectedVideo) && selections == old(selections)
      ensures files != [] ==> uploadError == Validate(files[0])
      ensures files != [] && Validate(files[0]).Some? ==> selections == old(selections) && selectedVideo == old(selectedVideo)
      ensures files != [] && Validate(files[0]).None? ==> selections == old(selections) + [Some(files[0])]
    {
      uploadError := None;
      if |files| > 0 {
        ValidateAndSetFile(files[0]);
      }
    }

    /** `removeVideo`: the parent's selection becomes null and the error is cleared. */
    method RemoveVideo()
      requires Valid()
      modifies this
      ensures Valid()
      ensures selectedVideo == None && uploadError == None && dragActive == old(dragActive)
      ensures selections == old(selections) + [None]
    {
      Select(None);
      uploadError := None;
    }
  }
}

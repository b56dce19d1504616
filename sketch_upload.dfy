// `useSketchUploadStart`: validates an audio file, uploads it under a fresh
// abort controller and tracks loading, completion and error. The upload
// request is an oracle reply; a controller is its identity number and
// `aborted` the set of controllers that were aborted.
module SketchUpload {
  import opened Wrappers
  import JsString

  /** The selected file: MIME type, size in bytes and name. */
  datatype AudioFile = AudioFile(mimeType: string, size: nat, name: string)

  /** `{ taskId }` or `{ audioId }`. */
  datatype UploadOutcome = TaskStarted(taskId: string) | Uploaded(audioId: string)

  /** How the upload request ends: a response, or a thrown value (an `Error` with its name and message, or anything else). */
  datatype UploadReply =
    | Responded(audioId: string)
    | ThrewError(name: string, message: string)
    | ThrewOther

  /** The upload request as sent: file, type tag and thread. */
  datatype UploadCall = UploadCall(file: AudioFile, fileType: string, threadId: string)

  const MaxFileSize: nat := 60 * 1024 * 1024
  const DemoType := "demo"

  /** The first validation check that fails, if any. */
  function ValidationError(file: AudioFile): (r: Option<string>)
    ensures r.None? <==> JsString.StartsWith(file.mimeType, "audio/") && file.size <= MaxFileSize
  {
    if !JsString.StartsWith(file.mimeType, "audio/") then Some("Please upload an audio file")
    else if file.size > MaxFileSize then Some("File size should be less than 50MB")
    else None
  }

  /** `postProcess || AudioType.DEMO`. */
  function FileType(postProcess: Option<string>): (r: string)
    ensures postProcess.Some? && postProcess.value != "" ==> r == postProcess.value
    ensures postProcess.None? || postProcess == Some("") ==> r == DemoType
  {
    if postProcess.Some? && postProcess.value != "" then postProcess.value else DemoType
  }

  /** The message of the error an upload failure is rethrown as. */
  function FailureMessage(reply: UploadReply): (r: string)
    requires !reply.Responded?
    ensures reply.ThrewError? && reply.name == "AbortError" ==> r == "Upload cancelled"
    ensures reply.ThrewError? && reply.name != "AbortError" ==> r == reply.message
    ensures reply.ThrewOther? ==> r == "Failed to upload file"
  {
    match reply
    case ThrewError(name, message) => if name == "AbortError" then "Upload cancelled" else message
    case ThrewOther => "Failed to upload file"
  }

  class SketchUploader {
    var controller: Option<nat>
    var aborted: set<nat>
    var nextController: nat
    var isLoading: bool
    var isComplete: bool
    var error: Option<string>
    var calls: seq<UploadCall>

    predicate Valid()
      reads this
    {
      (controller.Some? ==> controller.value < nextController)
      && forall c :: c in aborted ==> c < nextController
    }

    constructor ()
      ensures Valid()
      ensures controller == None && aborted == {} && !isLoading && !isComplete && error == None && calls == []
    {
      controller := None;
      aborted := {};
      nextController := 0;
      isLoading := false;
      isComplete := false;
      error := None;
      calls := [];
    }

    /**
     * `startUpload`. A file that fails validation is rejected before any
     * state changes. Otherwise the previous controller is aborted, the upload
     * is sent with `postProcess` or `"demo"` as its type, and afterwards
     * loading is off and no controller is held: on a response the result is
     * the audio id and the upload is complete; on a failure the error is
     * recorded and rethrown.
     */
    method StartUpload(file: AudioFile, postProcess: Option<string>, threadId: string, reply: UploadReply)
      returns (r: Result<UploadOutcome, string>)
      requires Valid()
      modifies this
      ensures Valid()
      ensures ValidationError(file).Some? ==>
        r == Failure(ValidationError(file).value)
        && controller == old(controller) && aborted == old(aborted) && isLoading == old(isLoading)
        && isComplete == old(isComplete) && error == old(error) && calls == old(calls)
      ensures ValidationError(file).None? ==>
        calls == old(calls) + [UploadCall(file, FileType(postProcess), threadId)]
        && aborted == old(aborted) + (if old(controller).Some? then {old(controller).value} else {})
        && !isLoading && controller == None
        && (reply.Responded? ==> r == Success(Uploaded(reply.audioId)) && isComplete && error == None)
        && (!reply.Responded? ==> r == Failure(FailureMessage(reply)) && !isComplete && error == Some(FailureMessage(reply)))
    {
      var invalid := ValidationError(file);
      if invalid.Some? {
        return Failure(invalid.value);
      }
      if controller.Some? {
        aborted := aborted + {controller.value};
      }
      controller := Some(nextController);
      nextController := nextController + 1;
      isLoading := true;
      isComplete := false;
      error := None;
      var fileType := FileType(postProcess);
      calls := calls + [UploadCall(file, fileType, threadId)];
      if reply.Responded? {
        isComplete := true;
        r := Success(Uploaded(reply.audioId));
      } else {
        var message := FailureMessage(reply);
        error := Some(message);
        r := Failure(message);
      }
      isLoading := false;
      controller := None;
    }

    /** `cancel`: abort and drop the controller if there is one, and reset loading, completion and error. */
    method Cancel()
      requires Valid()
      modifies this
      ensures Valid()
      ensures controller == None && !isLoading && !isComplete && error == None
      ensures aborted == old(aborted) + (if old(controller).Some? then {old(controller).value} else {})
      ensures calls == old(calls)
    {
      if controller.Some? {
        aborted := aborted + {controller.value};
        controller := None;
      }
      isLoading := false;
      isComplete := false;
      error := None;
    }

    /** The unmount cleanup: abort and drop the controller if there is one. */
    method Unmount()
      requires Valid()
      modifies this
      ensures Valid()
      ensures controller == None
      ensures aborted == old(aborted) + (if old(controller).Some? then {old(controller).value} else {})
      ensures isLoading == old(isLoading) && isComplete == old(isComplete) && error == old(error) && calls == old(calls)
    {
      if controller.Some? {
        aborted := aborted + {controller.value};
        controller := None;
      }
    }
  }

  /** Non-audio files and files over 60 MiB are refused, even though the message says 50MB. */
  lemma ValidationRules(file: AudioFile)
    ensures !JsString.StartsWith(file.mimeType, "audio/") ==> ValidationError(file) == Some("Please upload an audio file")
    ensures JsString.StartsWith(file.mimeType, "audio/") && file.size > 62914560 ==>
      ValidationError(file) == Some("File size should be less than 50MB")
    ensures ValidationError(AudioFile("audio/mpeg", 55 * 1000 * 1000, file.name)).None?
  {
    assert JsString.StartsWith("audio/mpeg", "audio/") by {
      assert "audio/mpeg"[..6] == "audio/";
    }
  }
}

// `ChatInputWithUpload`: the chat input while an upload request is open.
// Picking a file runs the upload hook and reports the outcome through the
// `onUploadStart` / `onUploadComplete` callbacks. The hook's result and the
// callbacks' rejections are parameters; the callbacks made are logged.
module ChatInputWithUpload {
  import opened Wrappers
  import opened SketchUpload

  /** The open `audio_upload_request` the input is answering. */
  datatype ActiveRequest = ActiveRequest(audioUploadRequestId: string, taskId: string, postProcess: Option<string>)

  datatype Callback =
    | UploadStartCall(requestId: string, taskId: string, fileName: string)
    | UploadCompleteCall(requestId: string, taskId: string, audioId: string, fileName: string)

  /** Milliseconds after which a shown error is cleared. */
  const ErrorClearDelay := 5000

  /** `Boolean(activeUploadRequest && !isUploading && !activeUploadId)`. */
  predicate ShowUploadButton(hasRequest: bool, isUploading: bool, activeUploadId: Option<string>)
  {
    hasRequest && !isUploading && activeUploadId.None?
  }

  class UploadInput {
    var isUploading: bool
    var activeUploadId: Option<string>
    var error: Option<string>
    var callbacks: seq<Callback>

    constructor ()
      ensures !isUploading && activeUploadId == None && error == None && callbacks == []
    {
      isUploading := false;
      activeUploadId := None;
      error := None;
      callbacks := [];
    }

    /**
     * `handleFileSelect`. Without a file, an open request or both callbacks
     * nothing happens. Otherwise: a `taskId` result reports the start and
     * keeps the request marked active; an `audioId` result reports the
     * completion and clears it; any failure, of the upload or of a callback,
     * shows its message and clears it. Uploading is off afterwards.
     */
    method HandleFileSelect(file: Option<AudioFile>, request: Option<ActiveRequest>, hasCallbacks: bool,
                            result: Result<UploadOutcome, string>, callbackError: Option<string>)
      modifies this
      ensures file.None? || request.None? || !hasCallbacks ==>
        isUploading == old(isUploading) && activeUploadId == old(activeUploadId)
        && error == old(error) && callbacks == old(callbacks)
      ensures file.Some? && request.Some? && hasCallbacks ==>
        !isUploading
        && (result.Failure? ==>
              callbacks == old(callbacks) && error == Some(result.error) && activeUploadId == None)
        && (result.Success? && result.value.TaskStarted? ==>
              callbacks == old(callbacks) + [UploadStartCall(request.value.audioUploadRequestId, result.value.taskId, file.value.name)]
              && (callbackError.None? ==> error == None && activeUploadId == Some(request.value.audioUploadRequestId))
              && (callbackError.Some? ==> error == callbackError && activeUploadId == None))
        && (result.Success? && result.value.Uploaded? ==>
              callbacks == old(callbacks) + [UploadCompleteCall(request.value.audioUploadRequestId, request.value.taskId,
                                                                 result.value.audioId, file.value.name)]
              && activeUploadId == None
              && (callbackError.None? ==> error == None)
              && (callbackError.Some? ==> error == callbackError))
    {
      if file.None? || request.None? || !hasCallbacks {
        return;
      }
      var req := request.value;
      isUploading := true;
      activeUploadId := Some(req.audioUploadRequestId);
      error := None;
      if result.Failure? {
        error := Some(result.error);
        activeUploadId := None;
      } else if result.value.TaskStarted? {
        callbacks := callbacks + [UploadStartCall(req.audioUploadRequestId, result.value.taskId, file.value.name)];
        if callbackError.Some? {
          error := callbackError;
          activeUploadId := None;
        }
      } else {
        callbacks := callbacks + [UploadCompleteCall(req.audioUploadRequestId, req.taskId, result.value.audioId, file.value.name)];
        if callbackError.Some? {
          error := callbackError;
        }
        activeUploadId := None;
      }
      isUploading := false;
    }

    /** The 5-second timer: a shown error is cleared. */
    method ErrorTimerFires()
      modifies this
      ensures error == None
      ensures isUploading == old(isUploading) && activeUploadId == old(activeUploadId) && callbacks == old(callbacks)
    {
      if error.Some? {
        error := None;
      }
    }
  }

  /**
   * The button is shown exactly when a request is open, nothing is uploading
   * and no upload is in flight for it; so it is hidden while the start of an
   * upload is awaited and shown again once that upload fails or completes.
   */
  lemma UploadButtonRule(hasRequest: bool, isUploading: bool, activeUploadId: Option<string>)
    ensures ShowUploadButton(hasRequest, isUploading, activeUploadId) ==> hasRequest
    ensures isUploading || activeUploadId.Some? ==> !ShowUploadButton(hasRequest, isUploading, activeUploadId)
    ensures hasRequest && !isUploading && activeUploadId == None ==> ShowUploadButton(hasRequest, isUploading, activeUploadId)
  {
  }

  /**
   * With the upload hook itself supplying the result, the `taskId` branch is
   * never taken: a successful upload always reports an audio id.
   */
  method SelectFileWithHook(input: UploadInput, uploader: SketchUploader, file: AudioFile, request: ActiveRequest,
                            threadId: string, reply: UploadReply, callbackError: Option<string>)
    requires uploader.Valid()
    modifies input, uploader
    ensures !input.isUploading && input.activeUploadId == None
    ensures |input.callbacks| <= |old(input.callbacks)| + 1
    ensures forall k :: |old(input.callbacks)| <= k < |input.callbacks| ==> input.callbacks[k].UploadCompleteCall?
  {
    var result := uploader.StartUpload(file, request.postProcess, threadId, reply);
    input.HandleFileSelect(Some(file), Some(request), true, result, callbackError);
  }
}

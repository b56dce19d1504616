// The chat data model: the closed union of fragment kinds a message is made
// of, the optional rendering fields every fragment may carry, messages and
// thread summaries.
module ChatTypes {
  import opened Wrappers

  datatype Track = Track(spotifyId: string, title: string)

  /**
   * The kind-specific payload of a fragment, one constructor per `type` tag.
   * Fields with the same name in several kinds (taskId, audioId,
   * audioUploadRequestId, referenceCandidatesId) are shared destructors. The
   * optional `songName` of an upload completion is `uploadedSongName` here,
   * because the lyrics kind's `songName` is not optional.
   */
  datatype Body =
    | Text(text: string)
    | Error(error: string, taskId: string)
    | AudioUploadRequest(taskId: string, audioUploadRequestId: string,
                         fileName: Option<string>, postProcess: Option<string>)
    | AudioUploadStart(taskId: string, audioUploadRequestId: string, fileName: Option<string>)
    | AudioUploadComplete(taskId: string, audioUploadRequestId: string, audioId: string,
                          uploadedSongName: Option<string>)
    | AudioAnalysisStart(taskId: string, audioId: string)
    | AudioAnalysisComplete(taskId: string, audioId: string)
    | ReferenceCandidates(referenceCandidatesId: string, references: seq<string>)
    | ReferenceSelection(referenceCandidatesId: string, referenceId: string, optionNumber: int)
    | SongRenderingStart(taskId: string, audioId: string)
    | SongRenderingComplete(taskId: string, audioId: string, butcherId: string)
    | QuantizationStart(taskId: string, audioId: string)
    | QuantizationComplete(taskId: string, audioId: string)
    | MixingStart(taskId: string, audioId: string)
    | MixingComplete(taskId: string, audioId: string)
    | StemSeparationStart(taskId: string, audioId: string)
    | StemSeparationComplete(taskId: string, vocalsAudioId: string, instrumentsAudioId: string)
    | SongCompositionStart(taskId: string)
    | SongCompositionComplete(taskId: string, audioId: string)
    | LyricsWriting(lyrics: string, songName: string)
    | MusicalMatches(tracks: seq<Track>)

  /** A fragment: its payload plus the optional rendering-only fields of every fragment. */
  datatype Fragment = Fragment(body: Body, done: Option<bool>, messageId: Option<string>,
                               threadId: Option<string>)

  /** A fragment as it arrives from the server: no rendering field set. */
  function Plain(b: Body): (f: Fragment)
    ensures f.body == b && f.done.None? && f.messageId.None? && f.threadId.None?
  {
    Fragment(b, None, None, None)
  }

  /** The `type` tag of each kind. */
  function Tag(b: Body): string
  {
    match b
    case Text(_) => "text"
    case Error(_, _) => "error"
    case AudioUploadRequest(_, _, _, _) => "audio_upload_request"
    case AudioUploadStart(_, _, _) => "audio_upload_start"
    case AudioUploadComplete(_, _, _, _) => "audio_upload_complete"
    case AudioAnalysisStart(_, _) => "audio_analysis_start"
    case AudioAnalysisComplete(_, _) => "audio_analysis_complete"
    case ReferenceCandidates(_, _) => "reference_candidates"
    case ReferenceSelection(_, _, _) => "reference_selection"
    case SongRenderingStart(_, _) => "song_rendering_start"
    case SongRenderingComplete(_, _, _) => "song_rendering_complete"
    case QuantizationStart(_, _) => "quantization_start"
    case QuantizationComplete(_, _) => "quantization_complete"
    case MixingStart(_, _) => "mixing_start"
    case MixingComplete(_, _) => "mixing_complete"
    case StemSeparationStart(_, _) => "stem_separation_start"
    case StemSeparationComplete(_, _, _) => "stem_separation_complete"
    case SongCompositionStart(_) => "song_composition_start"
    case SongCompositionComplete(_, _) => "song_composition_complete"
    case LyricsWriting(_, _) => "lyrics_writing"
    case MusicalMatches(_) => "musical_matches"
  }

  /** The JavaScript test `'taskId' in fragment`. */
  predicate HasTaskId(b: Body)
  {
    !(b.Text? || b.ReferenceCandidates? || b.ReferenceSelection? || b.LyricsWriting? || b.MusicalMatches?)
  }

  /** `'audioUploadRequestId' in fragment`. */
  predicate HasAudioUploadRequestId(b: Body)
  {
    b.AudioUploadRequest? || b.AudioUploadStart? || b.AudioUploadComplete?
  }

  /** `'referenceCandidatesId' in fragment`. */
  predicate HasReferenceCandidatesId(b: Body)
  {
    b.ReferenceCandidates? || b.ReferenceSelection?
  }

  /** `'audioId' in fragment`. */
  predicate HasAudioId(b: Body)
  {
    b.AudioUploadComplete? || b.AudioAnalysisStart? || b.AudioAnalysisComplete?
    || b.SongRenderingStart? || b.SongRenderingComplete? || b.QuantizationStart?
    || b.QuantizationComplete? || b.MixingStart? || b.MixingComplete?
    || b.StemSeparationStart? || b.SongCompositionComplete?
  }

  /** `'butcherId' in fragment`. */
  predicate HasButcherId(b: Body)
  {
    b.SongRenderingComplete?
  }

  /** Every upload-family fragment carries both a taskId and an audioUploadRequestId. */
  lemma UploadFragmentsCarryBothIds(b: Body)
    requires b.AudioUploadRequest? || b.AudioUploadStart? || b.AudioUploadComplete?
    ensures HasTaskId(b) && HasAudioUploadRequestId(b)
  {
  }

  /** Reference-family fragments carry a referenceCandidatesId and never a taskId. */
  lemma ReferenceFragmentsHaveNoTaskId(b: Body)
    requires b.ReferenceCandidates? || b.ReferenceSelection?
    ensures HasReferenceCandidatesId(b) && !HasTaskId(b)
  {
  }

  /** A stem-separation result names its two stems and has no single audioId. */
  lemma StemSeparationCompleteHasNoAudioId(b: Body)
    requires b.StemSeparationComplete?
    ensures !HasAudioId(b) && HasTaskId(b)
  {
  }

  datatype Role = User | Assistant

  /** A chat message: its author role and its ordered fragments; the timestamp is an abstract clock value. */
  datatype Message = Message(id: string, role: Role, content: seq<Fragment>, timestamp: int)

  /** Thread summary as listed per artist. */
  datatype ThreadDetails = ThreadDetails(title: Option<string>, artistId: string, artistName: string,
                                         lastMessageAt: string)

  datatype ThreadDetailsWithId = ThreadDetailsWithId(threadId: string, details: ThreadDetails)
}

// The fragment-correlation engine: flatten every non-text fragment of a
// thread, index the task ids that reported an error, and group each task
// family's fragments by their correlation key, listing the groups that are
// still waiting for a follow-up fragment.
module MessageProcessor {
  import opened Wrappers
  import opened ChatTypes
  import opened SeqUtil
  import JsString

  /** The eight fragment families the processor groups, in the order it processes them. */
  datatype Family =
    | AudioUploads | SongRenderings | References | Quantizations
    | Mixings | StemSeparations | SongCompositions | Analyses

  // The family guards. Uploads and references are recognised by the
  // presence of their correlation field, song renderings by a taskId plus
  // the type prefix, the other task families by the type prefix alone.

  predicate IsAudioUpload(f: Fragment) { HasAudioUploadRequestId(f.body) }
  predicate IsSongRendering(f: Fragment) { HasTaskId(f.body) && JsString.StartsWith(Tag(f.body), "song_rendering") }
  predicate IsReference(f: Fragment) { HasReferenceCandidatesId(f.body) }
  predicate IsQuantization(f: Fragment) { JsString.StartsWith(Tag(f.body), "quantization") }
  predicate IsMixing(f: Fragment) { JsString.StartsWith(Tag(f.body), "mixing") }
  predicate IsStemSeparation(f: Fragment) { JsString.StartsWith(Tag(f.body), "stem_separation") }
  predicate IsSongComposition(f: Fragment) { JsString.StartsWith(Tag(f.body), "song_composition") }
  predicate IsAudioAnalysis(f: Fragment) { JsString.StartsWith(Tag(f.body), "audio_analysis") }

  predicate InFamily(fam: Family, f: Fragment)
  {
    match fam
    case AudioUploads => IsAudioUpload(f)
    case SongRenderings => IsSongRendering(f)
    case References => IsReference(f)
    case Quantizations => IsQuantization(f)
    case Mixings => IsMixing(f)
    case StemSeparations => IsStemSeparation(f)
    case SongCompositions => IsSongComposition(f)
    case Analyses => IsAudioAnalysis(f)
  }

  // What each guard accepts, stated as kinds of the closed fragment union:
  // each prefix test picks exactly the start and complete kinds of its
  // family (every other tag differs from the prefix at the position given).

  /** The kinds declared first in the union, text through the song-rendering start. */
  predicate EarlyKind(b: Body)
  {
    b.Text? || b.Error? || b.AudioUploadRequest? || b.AudioUploadStart? || b.AudioUploadComplete?
    || b.AudioAnalysisStart? || b.AudioAnalysisComplete? || b.ReferenceCandidates?
    || b.ReferenceSelection? || b.SongRenderingStart?
  }

  lemma SongRenderingGuardEarly(f: Fragment)
    requires EarlyKind(f.body)
    ensures IsSongRendering(f) <==> f.body.SongRenderingStart? || f.body.SongRenderingComplete?
  {
    if f.body.Text? {
      JsString.NotStartsWithAt("text", "song_rendering", 0);
    } else if f.body.Error? {
      JsString.NotStartsWithAt("error", "song_rendering", 0);
    } else if f.body.AudioUploadRequest? {
      JsString.NotStartsWithAt("audio_upload_request", "song_rendering", 0);
    } else if f.body.AudioUploadStart? {
      JsString.NotStartsWithAt("audio_upload_start", "song_rendering", 0);
    } else if f.body.AudioUploadComplete? {
      JsString.NotStartsWithAt("audio_upload_complete", "song_rendering", 0);
    } else if f.body.AudioAnalysisStart? {
      JsString.NotStartsWithAt("audio_analysis_start", "song_rendering", 0);
    } else if f.body.AudioAnalysisComplete? {
      JsString.NotStartsWithAt("audio_analysis_complete", "song_rendering", 0);
    } else if f.body.ReferenceCandidates? {
      JsString.NotStartsWithAt("reference_candidates", "song_rendering", 0);
    } else if f.body.ReferenceSelection? {
      JsString.NotStartsWithAt("reference_selection", "song_rendering", 0);
    } else {
      assert "song_rendering" <= "song_rendering_start";
    }
  }

  lemma SongRenderingGuardLate(f: Fragment)
    requires !EarlyKind(f.body)
    ensures IsSongRendering(f) <==> f.body.SongRenderingStart? || f.body.SongRenderingComplete?
  {
    if f.body.SongRenderingComplete? {
      assert "song_rendering" <= "song_rendering_complete";
    } else if f.body.QuantizationStart? {
      JsString.NotStartsWithAt("quantization_start", "song_rendering", 0);
    } else if f.body.QuantizationComplete? {
      JsString.NotStartsWithAt("quantization_complete", "song_rendering", 0);
    } else if f.body.MixingStart? {
      JsString.NotStartsWithAt("mixing_start", "song_rendering", 0);
    } else if f.body.MixingComplete? {
      JsString.NotStartsWithAt("mixing_complete", "song_rendering", 0);
    } else if f.body.StemSeparationStart? {
      JsString.NotStartsWithAt("stem_separation_start", "song_rendering", 1);
    } else if f.body.StemSeparationComplete? {
      JsString.NotStartsWithAt("stem_separation_complete", "song_rendering", 1);
    } else if f.body.SongCompositionStart? {
      JsString.NotStartsWithAt("song_composition_start", "song_rendering", 5);
    } else if f.body.SongCompositionComplete? {
      JsString.NotStartsWithAt("song_composition_complete", "song_rendering", 5);
    } else if f.body.LyricsWriting? {
      JsString.NotStartsWithAt("lyrics_writing", "song_rendering", 0);
    } else {
      JsString.NotStartsWithAt("musical_matches", "song_rendering", 0);
    }
  }

  lemma SongRenderingGuard(f: Fragment)
    ensures IsSongRendering(f) <==> f.body.SongRenderingStart? || f.body.SongRenderingComplete?
  {
    if EarlyKind(f.body) {
      SongRenderingGuardEarly(f);
    } else {
      SongRenderingGuardLate(f);
    }
  }

  lemma QuantizationGuardEarly(f: Fragment)
    requires EarlyKind(f.body)
    ensures IsQuantization(f) <==> f.body.QuantizationStart? || f.body.QuantizationComplete?
  {
    if f.body.Text? {
      JsString.NotStartsWithAt("text", "quantization", 0);
    } else if f.body.Error? {
      JsString.NotStartsWithAt("error", "quantization", 0);
    } else if f.body.AudioUploadRequest? {
      JsString.NotStartsWithAt("audio_upload_request", "quantization", 0);
    } else if f.body.AudioUploadStart? {
      JsString.NotStartsWithAt("audio_upload_start", "quantization", 0);
    } else if f.body.AudioUploadComplete? {
      JsString.NotStartsWithAt("audio_upload_complete", "quantization", 0);
    } else if f.body.AudioAnalysisStart? {
      JsString.NotStartsWithAt("audio_analysis_start", "quantization", 0);
    } else if f.body.AudioAnalysisComplete? {
      JsString.NotStartsWithAt("audio_analysis_complete", "quantization", 0);
    } else if f.body.ReferenceCandidates? {
      JsString.NotStartsWithAt("reference_candidates", "quantization", 0);
    } else if f.body.ReferenceSelection? {
      JsString.NotStartsWithAt("reference_selection", "quantization", 0);
    } else {
      JsString.NotStartsWithAt("song_rendering_start", "quantization", 0);
    }
  }

  lemma QuantizationGuardLate(f: Fragment)
    requires !EarlyKind(f.body)
    ensures IsQuantization(f) <==> f.body.QuantizationStart? || f.body.QuantizationComplete?
  {
    if f.body.SongRenderingComplete? {
      JsString.NotStartsWithAt("song_rendering_complete", "quantization", 0);
    } else if f.body.QuantizationStart? {
      assert "quantization" <= "quantization_start";
    } else if f.body.QuantizationComplete? {
      assert "quantization" <= "quantization_complete";
    } else if f.body.MixingStart? {
      JsString.NotStartsWithAt("mixing_start", "quantization", 0);
    } else if f.body.MixingComplete? {
      JsString.NotStartsWithAt("mixing_complete", "quantization", 0);
    } else if f.body.StemSeparationStart? {
      JsString.NotStartsWithAt("stem_separation_start", "quantization", 0);
    } else if f.body.StemSeparationComplete? {
      JsString.NotStartsWithAt("stem_separation_complete", "quantization", 0);
    } else if f.body.SongCompositionStart? {
      JsString.NotStartsWithAt("song_composition_start", "quantization", 0);
    } else if f.body.SongCompositionComplete? {
      JsString.NotStartsWithAt("song_composition_complete", "quantization", 0);
    } else if f.body.LyricsWriting? {
      JsString.NotStartsWithAt("lyrics_writing", "quantization", 0);
    } else {
      JsString.NotStartsWithAt("musical_matches", "quantization", 0);
    }
  }

  lemma QuantizationGuard(f: Fragment)
    ensures IsQuantization(f) <==> f.body.QuantizationStart? || f.body.QuantizationComplete?
  {
    if EarlyKind(f.body) {
      QuantizationGuardEarly(f);
    } else {
      QuantizationGuardLate(f);
    }
  }

  lemma MixingGuardEarly(f: Fragment)
    requires EarlyKind(f.body)
    ensures IsMixing(f) <==> f.body.MixingStart? || f.body.MixingComplete?
  {
    if f.body.Text? {
      JsString.NotStartsWithAt("text", "mixing", 0);
    } else if f.body.Error? {
      JsString.NotStartsWithAt("error", "mixing", 0);
    } else if f.body.AudioUploadRequest? {
      JsString.NotStartsWithAt("audio_upload_request", "mixing", 0);
    } else if f.body.AudioUploadStart? {
      JsString.NotStartsWithAt("audio_upload_start", "mixing", 0);
    } else if f.body.AudioUploadComplete? {
      JsString.NotStartsWithAt("audio_upload_complete", "mixing", 0);
    } else if f.body.AudioAnalysisStart? {
      JsString.NotStartsWithAt("audio_analysis_start", "mixing", 0);
    } else if f.body.AudioAnalysisComplete? {
      JsString.NotStartsWithAt("audio_analysis_complete", "mixing", 0);
    } else if f.body.ReferenceCandidates? {
      JsString.NotStartsWithAt("reference_candidates", "mixing", 0);
    } else if f.body.ReferenceSelection? {
      JsString.NotStartsWithAt("reference_selection", "mixing", 0);
    } else {
      JsString.NotStartsWithAt("song_rendering_start", "mixing", 0);
    }
  }

  lemma MixingGuardLate(f: Fragment)
    requires !EarlyKind(f.body)
    ensures IsMixing(f) <==> f.body.MixingStart? || f.body.MixingComplete?
  {
    if f.body.SongRenderingComplete? {
      JsString.NotStartsWithAt("song_rendering_complete", "mixing", 0);
    } else if f.body.QuantizationStart? {
      JsString.NotStartsWithAt("quantization_start", "mixing", 0);
    } else if f.body.QuantizationComplete? {
      JsString.NotStartsWithAt("quantization_complete", "mixing", 0);
    } else if f.body.MixingStart? {
      assert "mixing" <= "mixing_start";
    } else if f.body.MixingComplete? {
      assert "mixing" <= "mixing_complete";
    } else if f.body.StemSeparationStart? {
      JsString.NotStartsWithAt("stem_separation_start", "mixing", 0);
    } else if f.body.StemSeparationComplete? {
      JsString.NotStartsWithAt("stem_separation_complete", "mixing", 0);
    } else if f.body.SongCompositionStart? {
      JsString.NotStartsWithAt("song_composition_start", "mixing", 0);
    } else if f.body.SongCompositionComplete? {
      JsString.NotStartsWithAt("song_composition_complete", "mixing", 0);
    } else if f.body.LyricsWriting? {
      JsString.NotStartsWithAt("lyrics_writing", "mixing", 0);
    } else {
      JsString.NotStartsWithAt("musical_matches", "mixing", 1);
    }
  }

  lemma MixingGuard(f: Fragment)
    ensures IsMixing(f) <==> f.body.MixingStart? || f.body.MixingComplete?
  {
    if EarlyKind(f.body) {
      MixingGuardEarly(f);
    } else {
      MixingGuardLate(f);
    }
  }

  lemma StemSeparationGuardEarly(f: Fragment)
    requires EarlyKind(f.body)
    ensures IsStemSeparation(f) <==> f.body.StemSeparationStart? || f.body.StemSeparationComplete?
  {
    if f.body.Text? {
      JsString.NotStartsWithAt("text", "stem_separation", 0);
    } else if f.body.Error? {
      JsString.NotStartsWithAt("error", "stem_separation", 0);
    } else if f.body.AudioUploadRequest? {
      JsString.NotStartsWithAt("audio_upload_request", "stem_separation", 0);
    } else if f.body.AudioUploadStart? {
      JsString.NotStartsWithAt("audio_upload_start", "stem_separation", 0);
    } else if f.body.AudioUploadComplete? {
      JsString.NotStartsWithAt("audio_upload_complete", "stem_separation", 0);
    } else if f.body.AudioAnalysisStart? {
      JsString.NotStartsWithAt("audio_analysis_start", "stem_separation", 0);
    } else if f.body.AudioAnalysisComplete? {
      JsString.NotStartsWithAt("audio_analysis_complete", "stem_separation", 0);
    } else if f.body.ReferenceCandidates? {
      JsString.NotStartsWithAt("reference_candidates", "stem_separation", 0);
    } else if f.body.ReferenceSelection? {
      JsString.NotStartsWithAt("reference_selection", "stem_separation", 0);
    } else {
      JsString.NotStartsWithAt("song_rendering_start", "stem_separation", 1);
    }
  }

  lemma StemSeparationGuardLate(f: Fragment)
    requires !EarlyKind(f.body)
    ensures IsStemSeparation(f) <==> f.body.StemSeparationStart? || f.body.StemSeparationComplete?
  {
    if f.body.SongRenderingComplete? {
      JsString.NotStartsWithAt("song_rendering_complete", "stem_separation", 1);
    } else if f.body.QuantizationStart? {
      JsString.NotStartsWithAt("quantization_start", "stem_separation", 0);
    } else if f.body.QuantizationComplete? {
      JsString.NotStartsWithAt("quantization_complete", "stem_separation", 0);
    } else if f.body.MixingStart? {
      JsString.NotStartsWithAt("mixing_start", "stem_separation", 0);
    } else if f.body.MixingComplete? {
      JsString.NotStartsWithAt("mixing_complete", "stem_separation", 0);
    } else if f.body.StemSeparationStart? {
      assert "stem_separation" <= "stem_separation_start";
    } else if f.body.StemSeparationComplete? {
      assert "stem_separation" <= "stem_separation_complete";
    } else if f.body.SongCompositionStart? {
      JsString.NotStartsWithAt("song_composition_start", "stem_separation", 1);
    } else if f.body.SongCompositionComplete? {
      JsString.NotStartsWithAt("song_composition_complete", "stem_separation", 1);
    } else if f.body.LyricsWriting? {
      JsString.NotStartsWithAt("lyrics_writing", "stem_separation", 0);
    } else {
      JsString.NotStartsWithAt("musical_matches", "stem_separation", 0);
    }
  }

  lemma StemSeparationGuard(f: Fragment)
    ensures IsStemSeparation(f) <==> f.body.StemSeparationStart? || f.body.StemSeparationComplete?
  {
    if EarlyKind(f.body) {
      StemSeparationGuardEarly(f);
    } else {
      StemSeparationGuardLate(f);
    }
  }

  lemma SongCompositionGuardEarly(f: Fragment)
    requires EarlyKind(f.body)
    ensures IsSongComposition(f) <==> f.body.SongCompositionStart? || f.body.SongCompositionComplete?
  {
    if f.body.Text? {
      JsString.NotStartsWithAt("text", "song_composition", 0);
    } else if f.body.Error? {
      JsString.NotStartsWithAt("error", "song_composition", 0);
    } else if f.body.AudioUploadRequest? {
      JsString.NotStartsWithAt("audio_upload_request", "song_composition", 0);
    } else if f.body.AudioUploadStart? {
      JsString.NotStartsWithAt("audio_upload_start", "song_composition", 0);
    } else if f.body.AudioUploadComplete? {
      JsString.NotStartsWithAt("audio_upload_complete", "song_composition", 0);
    } else if f.body.AudioAnalysisStart? {
      JsString.NotStartsWithAt("audio_analysis_start", "song_composition", 0);
    } else if f.body.AudioAnalysisComplete? {
      JsString.NotStartsWithAt("audio_analysis_complete", "song_composition", 0);
    } else if f.body.ReferenceCandidates? {
      JsString.NotStartsWithAt("reference_candidates", "song_composition", 0);
    } else if f.body.ReferenceSelection? {
      JsString.NotStartsWithAt("reference_selection", "song_composition", 0);
    } else {
      JsString.NotStartsWithAt("song_rendering_start", "song_composition", 5);
    }
  }

  lemma SongCompositionGuardLate(f: Fragment)
    requires !EarlyKind(f.body)
    ensures IsSongComposition(f) <==> f.body.SongCompositionStart? || f.body.SongCompositionComplete?
  {
    if f.body.SongRenderingComplete? {
      JsString.NotStartsWithAt("song_rendering_complete", "song_composition", 5);
    } else if f.body.QuantizationStart? {
      JsString.NotStartsWithAt("quantization_start", "song_composition", 0);
    } else if f.body.QuantizationComplete? {
      JsString.NotStartsWithAt("quantization_complete", "song_composition", 0);
    } else if f.body.MixingStart? {
      JsString.NotStartsWithAt("mixing_start", "song_composition", 0);
    } else if f.body.MixingComplete? {
      JsString.NotStartsWithAt("mixing_complete", "song_composition", 0);
    } else if f.body.StemSeparationStart? {
      JsString.NotStartsWithAt("stem_separation_start", "song_composition", 1);
    } else if f.body.StemSeparationComplete? {
      JsString.NotStartsWithAt("stem_separation_complete", "song_composition", 1);
    } else if f.body.SongCompositionStart? {
      assert "song_composition" <= "song_composition_start";
    } else if f.body.SongCompositionComplete? {
      assert "song_composition" <= "song_composition_complete";
    } else if f.body.LyricsWriting? {
      JsString.NotStartsWithAt("lyrics_writing", "song_composition", 0);
    } else {
      JsString.NotStartsWithAt("musical_matches", "song_composition", 0);
    }
  }

  lemma SongCompositionGuard(f: Fragment)
    ensures IsSongComposition(f) <==> f.body.SongCompositionStart? || f.body.SongCompositionComplete?
  {
    if EarlyKind(f.body) {
      SongCompositionGuardEarly(f);
    } else {
      SongCompositionGuardLate(f);
    }
  }

  lemma AudioAnalysisGuardEarly(f: Fragment)
    requires EarlyKind(f.body)
    ensures IsAudioAnalysis(f) <==> f.body.AudioAnalysisStart? || f.body.AudioAnalysisComplete?
  {
    if f.body.Text? {
      JsString.NotStartsWithAt("text", "audio_analysis", 0);
    } else if f.body.Error? {
      JsString.NotStartsWithAt("error", "audio_analysis", 0);
    } else if f.body.AudioUploadRequest? {
      JsString.NotStartsWithAt("audio_upload_request", "audio_analysis", 6);
    } else if f.body.AudioUploadStart? {
      JsString.NotStartsWithAt("audio_upload_start", "audio_analysis", 6);
    } else if f.body.AudioUploadComplete? {
      JsString.NotStartsWithAt("audio_upload_complete", "audio_analysis", 6);
    } else if f.body.AudioAnalysisStart? {
      assert "audio_analysis" <= "audio_analysis_start";
    } else if f.body.AudioAnalysisComplete? {
      assert "audio_analysis" <= "audio_analysis_complete";
    } else if f.body.ReferenceCandidates? {
      JsString.NotStartsWithAt("reference_candidates", "audio_analysis", 0);
    } else if f.body.ReferenceSelection? {
      JsString.NotStartsWithAt("reference_selection", "audio_analysis", 0);
    } else {
      JsString.NotStartsWithAt("song_rendering_start", "audio_analysis", 0);
    }
  }

  lemma AudioAnalysisGuardLate(f: Fragment)
    requires !EarlyKind(f.body)
    ensures IsAudioAnalysis(f) <==> f.body.AudioAnalysisStart? || f.body.AudioAnalysisComplete?
  {
    if f.body.SongRenderingComplete? {
      JsString.NotStartsWithAt("song_rendering_complete", "audio_analysis", 0);
    } else if f.body.QuantizationStart? {
      JsString.NotStartsWithAt("quantization_start", "audio_analysis", 0);
    } else if f.body.QuantizationComplete? {
      JsString.NotStartsWithAt("quantization_complete", "audio_analysis", 0);
    } else if f.body.MixingStart? {
      JsString.NotStartsWithAt("mixing_start", "audio_analysis", 0);
    } else if f.body.MixingComplete? {
      JsString.NotStartsWithAt("mixing_complete", "audio_analysis", 0);
    } else if f.body.StemSeparationStart? {
      JsString.NotStartsWithAt("stem_separation_start", "audio_analysis", 0);
    } else if f.body.StemSeparationComplete? {
      JsString.NotStartsWithAt("stem_separation_complete", "audio_analysis", 0);
    } else if f.body.SongCompositionStart? {
      JsString.NotStartsWithAt("song_composition_start", "audio_analysis", 0);
    } else if f.body.SongCompositionComplete? {
      JsString.NotStartsWithAt("song_composition_complete", "audio_analysis", 0);
    } else if f.body.LyricsWriting? {
      JsString.NotStartsWithAt("lyrics_writing", "audio_analysis", 0);
    } else {
      JsString.NotStartsWithAt("musical_matches", "audio_analysis", 0);
    }
  }

  lemma AudioAnalysisGuard(f: Fragment)
    ensures IsAudioAnalysis(f) <==> f.body.AudioAnalysisStart? || f.body.AudioAnalysisComplete?
  {
    if EarlyKind(f.body) {
      AudioAnalysisGuardEarly(f);
    } else {
      AudioAnalysisGuardLate(f);
    }
  }

  lemma GuardsMatchKinds(f: Fragment)
    ensures IsAudioUpload(f) <==> f.body.AudioUploadRequest? || f.body.AudioUploadStart? || f.body.AudioUploadComplete?
    ensures IsSongRendering(f) <==> f.body.SongRenderingStart? || f.body.SongRenderingComplete?
    ensures IsReference(f) <==> f.body.ReferenceCandidates? || f.body.ReferenceSelection?
    ensures IsQuantization(f) <==> f.body.QuantizationStart? || f.body.QuantizationComplete?
    ensures IsMixing(f) <==> f.body.MixingStart? || f.body.MixingComplete?
    ensures IsStemSeparation(f) <==> f.body.StemSeparationStart? || f.body.StemSeparationComplete?
    ensures IsSongComposition(f) <==> f.body.SongCompositionStart? || f.body.SongCompositionComplete?
    ensures IsAudioAnalysis(f) <==> f.body.AudioAnalysisStart? || f.body.AudioAnalysisComplete?
  {
    SongRenderingGuard(f);
    QuantizationGuard(f);
    MixingGuard(f);
    StemSeparationGuard(f);
    SongCompositionGuard(f);
    AudioAnalysisGuard(f);
  }

  /** No fragment belongs to two families. */
  lemma FamiliesDisjoint(f: Fragment, a: Family, b: Family)
    requires InFamily(a, f) && InFamily(b, f)
    ensures a == b
  {
    GuardsMatchKinds(f);
  }

  /** Text, error, lyrics and musical-match fragments belong to no family. */
  lemma UngroupedKinds(f: Fragment, fam: Family)
    requires f.body.Text? || f.body.Error? || f.body.LyricsWriting? || f.body.MusicalMatches?
    ensures !InFamily(fam, f)
  {
    GuardsMatchKinds(f);
  }

  /**
   * `String(fragment[key])` for the family's key: audioUploadRequestId for
   * uploads, referenceCandidatesId for references, taskId otherwise; a
   * missing field reads as the string "undefined".
   */
  function GroupKey(fam: Family, f: Fragment): string
  {
    match fam
    case AudioUploads => if HasAudioUploadRequestId(f.body) then f.body.audioUploadRequestId else "undefined"
    case References => if HasReferenceCandidatesId(f.body) then f.body.referenceCandidatesId else "undefined"
    case _ => if HasTaskId(f.body) then f.body.taskId else "undefined"
  }

  function Member(fam: Family): Fragment -> bool
  {
    f => InFamily(fam, f)
  }

  function KeyOf(fam: Family): Fragment -> string
  {
    f => GroupKey(fam, f)
  }

  function IsMedia(f: Fragment): bool
  {
    Tag(f.body) != "text"
  }

  /** Only the text kind carries the tag `text`. */
  lemma MediaIsNonText(f: Fragment)
    ensures IsMedia(f) <==> !f.body.Text?
  {
    match f.body
    case Text(_) =>
    case _ => assert Tag(f.body) != "text";
  }

  function Contents(messages: seq<Message>): (r: seq<seq<Fragment>>)
    ensures |r| == |messages| && forall i :: 0 <= i < |messages| ==> r[i] == messages[i].content
  {
    if messages == [] then [] else [messages[0].content] + Contents(messages[1..])
  }

  /** Every non-text fragment of the thread, in message order and then content order. */
  function GetFragments(messages: seq<Message>): (r: seq<Fragment>)
    ensures forall f :: f in r ==> !f.body.Text?
  {
    Filter(Flatten(Contents(messages)), IsMedia)
  }

  /** The fragments of a longer thread extend those of its prefix: appends only add at the end. */
  lemma GetFragmentsAppend(a: seq<Message>, b: seq<Message>)
    ensures GetFragments(a + b) == GetFragments(a) + GetFragments(b)
  {
    var ca, cb, cab := Contents(a), Contents(b), Contents(a + b);
    forall i | 0 <= i < |cab| ensures cab[i] == (ca + cb)[i] {
      if i < |a| {
        assert (a + b)[i] == a[i];
      } else {
        assert (a + b)[i] == b[i - |a|];
      }
    }
    assert cab == ca + cb;
    FlattenAppend(Contents(a), Contents(b));
    FilterAppend(Flatten(Contents(a)), Flatten(Contents(b)), IsMedia);
  }

  /** A fragment is collected exactly when it is non-text and occurs in some message. */
  lemma GetFragmentsMember(messages: seq<Message>, f: Fragment)
    ensures f in GetFragments(messages) <==>
      !f.body.Text? && exists i :: 0 <= i < |messages| && f in messages[i].content
  {
    var c := Contents(messages);
    FilterMember(Flatten(c), IsMedia, f);
    FlattenMember(c, f);
    MediaIsNonText(f);
    if exists i :: 0 <= i < |messages| && f in messages[i].content {
      var i :| 0 <= i < |messages| && f in messages[i].content;
      assert f in c[i];
    }
  }

  /** The task ids of error fragments (`taskIdsWithErrors`), collected by filter and map. */
  function ErrorTaskIds(fs: seq<Fragment>): (ids: set<string>)
  {
    if fs == [] then {}
    else
      var rest := ErrorTaskIds(fs[1..]);
      if Tag(fs[0].body) == "error" && HasTaskId(fs[0].body) then {fs[0].body.taskId} + rest else rest
  }

  /** The error index holds exactly the task ids that some error fragment reports. */
  lemma {:induction false} ErrorTaskIdsCharacterization(fs: seq<Fragment>, t: string)
    ensures t in ErrorTaskIds(fs) <==> exists f :: f in fs && f.body.Error? && f.body.taskId == t
  {
    if fs != [] {
      ErrorTaskIdsCharacterization(fs[1..], t);
      assert fs == [fs[0]] + fs[1..];
      if Tag(fs[0].body) == "error" {
        assert fs[0].body.Error?;
      }
    }
  }

  /** `frags.some(frag => 'taskId' in frag && taskIdsWithErrors.has(frag.taskId))`. */
  predicate HasErroredTask(frags: seq<Fragment>, errs: set<string>)
  {
    exists i | 0 <= i < |frags| :: HasTaskId(frags[i].body) && frags[i].body.taskId in errs
  }

  /** A group is pending when it exists, has exactly one fragment, and none of its fragments errored. */
  predicate IsPendingKey(grouped: map<string, seq<Fragment>>, k: string, errs: set<string>)
  {
    k in grouped && |grouped[k]| == 1 && !HasErroredTask(grouped[k], errs)
  }

  /** The last fragment of each pending group, visiting the keys in the given order. */
  function PendingOf(keys: seq<string>, grouped: map<string, seq<Fragment>>, errs: set<string>): (r: seq<Fragment>)
    ensures |r| <= |keys|
  {
    if keys == [] then []
    else
      var k := keys[0];
      (if IsPendingKey(grouped, k, errs) then [grouped[k][|grouped[k]| - 1]] else [])
        + PendingOf(keys[1..], grouped, errs)
  }

  lemma {:induction false} PendingOfMember(keys: seq<string>, grouped: map<string, seq<Fragment>>,
                                           errs: set<string>, x: Fragment)
    ensures x in PendingOf(keys, grouped, errs) <==>
      exists k :: k in keys && IsPendingKey(grouped, k, errs) && grouped[k] == [x]
  {
    if keys != [] {
      PendingOfMember(keys[1..], grouped, errs, x);
      var k := keys[0];
      assert keys == [k] + keys[1..];
      if IsPendingKey(grouped, k, errs) {
        assert grouped[k] == [grouped[k][0]];
      }
    }
  }

  datatype GroupResult = GroupResult(groupedById: map<string, seq<Fragment>>, pendingFragments: seq<Fragment>)

  /**
   * One family: keep its fragments, group them by key, and list the last
   * fragment of every key that is pending. Keys are visited in order of
   * first appearance.
   */
  function ProcessFragmentGroup(fs: seq<Fragment>, fam: Family, errs: set<string>): GroupResult
  {
    var filtered := Filter(fs, Member(fam));
    var grouped := GroupBy(filtered, KeyOf(fam));
    GroupResult(grouped, PendingOf(DistinctKeys(filtered, KeyOf(fam)), grouped, errs))
  }

  /**
   * The group under key k is the family's fragments with that key, in
   * arrival order; a key exists exactly when some family fragment has it.
   */
  lemma GroupsCharacterization(fs: seq<Fragment>, fam: Family, errs: set<string>, k: string)
    ensures var g := ProcessFragmentGroup(fs, fam, errs).groupedById;
      (k in g <==> exists f :: f in fs && InFamily(fam, f) && GroupKey(fam, f) == k)
      && (k in g ==> g[k] == Group(Filter(fs, Member(fam)), KeyOf(fam), k) && |g[k]| > 0)
  {
    var filtered := Filter(fs, Member(fam));
    assert ProcessFragmentGroup(fs, fam, errs).groupedById == GroupBy(filtered, KeyOf(fam));
    GroupByCharacterization(filtered, KeyOf(fam), k);
    if exists f :: f in fs && InFamily(fam, f) && GroupKey(fam, f) == k {
      var f :| f in fs && InFamily(fam, f) && GroupKey(fam, f) == k;
      FilterMember(fs, Member(fam), f);
      var i :| 0 <= i < |filtered| && filtered[i] == f;
      assert KeyOf(fam)(filtered[i]) == k;
    }
    if exists i :: 0 <= i < |filtered| && KeyOf(fam)(filtered[i]) == k {
      var i :| 0 <= i < |filtered| && KeyOf(fam)(filtered[i]) == k;
      FilterMember(fs, Member(fam), filtered[i]);
    }
  }

  /** Every fragment filed under key k is a family fragment with key k. */
  lemma GroupContents(fs: seq<Fragment>, fam: Family, errs: set<string>, k: string, x: Fragment)
    requires k in ProcessFragmentGroup(fs, fam, errs).groupedById
    ensures x in ProcessFragmentGroup(fs, fam, errs).groupedById[k] <==>
      x in fs && InFamily(fam, x) && GroupKey(fam, x) == k
  {
    GroupsCharacterization(fs, fam, errs, k);
    GroupMember(Filter(fs, Member(fam)), KeyOf(fam), k, x);
    FilterMember(fs, Member(fam), x);
  }

  /**
   * The pending list holds exactly the sole fragments of the single-fragment
   * groups that no error touches.
   */
  lemma PendingCharacterization(fs: seq<Fragment>, fam: Family, errs: set<string>, x: Fragment)
    ensures var r := ProcessFragmentGroup(fs, fam, errs);
      x in r.pendingFragments <==> exists k :: IsPendingKey(r.groupedById, k, errs) && r.groupedById[k] == [x]
  {
    var filtered := Filter(fs, Member(fam));
    var r := ProcessFragmentGroup(fs, fam, errs);
    DistinctKeysAreGroupKeys(filtered, KeyOf(fam));
    PendingOfMember(DistinctKeys(filtered, KeyOf(fam)), r.groupedById, errs, x);
  }

  /** A pending fragment never carries a task id that an error fragment reported. */
  lemma PendingAvoidsErroredTasks(fs: seq<Fragment>, fam: Family, x: Fragment)
    requires x in ProcessFragmentGroup(fs, fam, ErrorTaskIds(fs)).pendingFragments
    ensures HasTaskId(x.body) ==> !exists e :: e in fs && e.body.Error? && e.body.taskId == x.body.taskId
  {
    var errs := ErrorTaskIds(fs);
    PendingCharacterization(fs, fam, errs, x);
    var k :| IsPendingKey(ProcessFragmentGroup(fs, fam, errs).groupedById, k, errs)
           && ProcessFragmentGroup(fs, fam, errs).groupedById[k] == [x];
    assert ProcessFragmentGroup(fs, fam, errs).groupedById[k][0] == x;
    if HasTaskId(x.body) {
      assert !(x.body.taskId in errs);
      ErrorTaskIdsCharacterization(fs, x.body.taskId);
    }
  }

  /** The client's view of every task family, derived from the thread. */
  datatype ChatState = ChatState(
    audioUploads: map<string, seq<Fragment>>, pendingAudioUploads: seq<Fragment>,
    songRenderings: map<string, seq<Fragment>>, pendingSongRenderings: seq<Fragment>,
    references: map<string, seq<Fragment>>,
    quantizations: map<string, seq<Fragment>>, pendingQuantizations: seq<Fragment>,
    mixings: map<string, seq<Fragment>>, pendingMixings: seq<Fragment>,
    stemSeparations: map<string, seq<Fragment>>, pendingStemSeparations: seq<Fragment>,
    songCompositions: map<string, seq<Fragment>>, pendingSongCompositions: seq<Fragment>,
    analysis: map<string, seq<Fragment>>, pendingAnalysis: seq<Fragment>)

  /** The groups a state holds for a family. */
  function Groups(s: ChatState, fam: Family): map<string, seq<Fragment>>
  {
    match fam
    case AudioUploads => s.audioUploads
    case SongRenderings => s.songRenderings
    case References => s.references
    case Quantizations => s.quantizations
    case Mixings => s.mixings
    case StemSeparations => s.stemSeparations
    case SongCompositions => s.songCompositions
    case Analyses => s.analysis
  }

  /** The pending list a state holds for a family (references have none). */
  function PendingList(s: ChatState, fam: Family): seq<Fragment>
  {
    match fam
    case AudioUploads => s.pendingAudioUploads
    case SongRenderings => s.pendingSongRenderings
    case References => []
    case Quantizations => s.pendingQuantizations
    case Mixings => s.pendingMixings
    case StemSeparations => s.pendingStemSeparations
    case SongCompositions => s.pendingSongCompositions
    case Analyses => s.pendingAnalysis
  }

  /** `MessageProcessor.process`: the state of every family, computed from the thread. */
  function Process(messages: seq<Message>): ChatState
  {
    var fs := GetFragments(messages);
    var errs := ErrorTaskIds(fs);
    Assemble(fam => ProcessFragmentGroup(fs, fam, errs))
  }

  /** The state object literal: each family's fields taken from that family's group result. */
  function Assemble(result: Family -> GroupResult): ChatState
  {
    ChatState(
      result(AudioUploads).groupedById, result(AudioUploads).pendingFragments,
      result(SongRenderings).groupedById, result(SongRenderings).pendingFragments,
      result(References).groupedById,
      result(Quantizations).groupedById, result(Quantizations).pendingFragments,
      result(Mixings).groupedById, result(Mixings).pendingFragments,
      result(StemSeparations).groupedById, result(StemSeparations).pendingFragments,
      result(SongCompositions).groupedById, result(SongCompositions).pendingFragments,
      result(Analyses).groupedById, result(Analyses).pendingFragments)
  }

  lemma AssembleSelects(result: Family -> GroupResult, fam: Family)
    ensures Groups(Assemble(result), fam) == result(fam).groupedById
    ensures fam != References ==> PendingList(Assemble(result), fam) == result(fam).pendingFragments
  {
  }

  /** Each family's part of the processed state is that family's group result. */
  lemma ProcessSelectsFamily(messages: seq<Message>, fam: Family)
    ensures var fs := GetFragments(messages);
      Groups(Process(messages), fam) == ProcessFragmentGroup(fs, fam, ErrorTaskIds(fs)).groupedById
      && (fam != References ==> PendingList(Process(messages), fam) == ProcessFragmentGroup(fs, fam, ErrorTaskIds(fs)).pendingFragments)
  {
    var fs := GetFragments(messages);
    var errs := ErrorTaskIds(fs);
    var result := f => ProcessFragmentGroup(fs, f, errs);
    assert Process(messages) == Assemble(result);
    AssembleSelects(result, fam);
    assert result(fam) == ProcessFragmentGroup(fs, fam, errs);
  }

  /**
   * In the processed state, key k of family fam is present exactly when a
   * non-text fragment of that family with key k occurs in the thread, and
   * then its group is every such fragment in arrival order.
   */
  lemma ProcessGroupsCharacterization(messages: seq<Message>, fam: Family, k: string, x: Fragment)
    ensures var g := Groups(Process(messages), fam);
      (k in g <==> exists f :: f in GetFragments(messages) && InFamily(fam, f) && GroupKey(fam, f) == k)
      && (k in g ==> |g[k]| > 0 && (x in g[k] <==> x in GetFragments(messages) && InFamily(fam, x) && GroupKey(fam, x) == k))
  {
    var fs := GetFragments(messages);
    ProcessSelectsFamily(messages, fam);
    GroupsCharacterization(fs, fam, ErrorTaskIds(fs), k);
    if k in Groups(Process(messages), fam) {
      GroupContents(fs, fam, ErrorTaskIds(fs), k, x);
    }
  }

  /**
   * Families are grouped independently: a quantization and a mixing
   * fragment that share a task id land in two different groups, each
   * holding only its own family's fragment.
   */
  lemma FamilyIsolation(messages: seq<Message>, q: Fragment, m: Fragment)
    requires q in GetFragments(messages) && m in GetFragments(messages)
    requires q.body.QuantizationStart? && m.body.MixingStart? && q.body.taskId == m.body.taskId
    ensures var gq := Groups(Process(messages), Quantizations);
      q.body.taskId in gq && q in gq[q.body.taskId] && m !in gq[q.body.taskId]
    ensures var gm := Groups(Process(messages), Mixings);
      q.body.taskId in gm && m in gm[q.body.taskId] && q !in gm[q.body.taskId]
  {
    var t := q.body.taskId;
    QuantizationGuard(q);
    QuantizationGuard(m);
    MixingGuard(q);
    MixingGuard(m);
    assert InFamily(Quantizations, q) && !InFamily(Quantizations, m);
    assert InFamily(Mixings, m) && !InFamily(Mixings, q);
    assert GroupKey(Quantizations, q) == t && GroupKey(Mixings, m) == t;
    var gq := Groups(Process(messages), Quantizations);
    var gm := Groups(Process(messages), Mixings);
    ProcessGroupsCharacterization(messages, Quantizations, t, q);
    assert t in gq && q in gq[t];
    ProcessGroupsCharacterization(messages, Quantizations, t, m);
    assert m !in gq[t];
    ProcessGroupsCharacterization(messages, Mixings, t, m);
    assert t in gm && m in gm[t];
    ProcessGroupsCharacterization(messages, Mixings, t, q);
    assert q !in gm[t];
  }

  /** The processed upload family of a lone request: one pending group. */
  lemma UploadGroupOfRequest(req: Fragment, r: string)
    requires req.body.AudioUploadRequest? && req.body.audioUploadRequestId == r
    ensures var g := ProcessFragmentGroup([req], AudioUploads, ErrorTaskIds([req]));
      g.groupedById == map[r := [req]] && g.pendingFragments == [req]
  {
    var one := [req];
    assert Filter(one, Member(AudioUploads)) == one;
    assert one[..0] == [];
    assert KeyOf(AudioUploads)(req) == r;
    var empty: seq<Fragment> := [];
    assert GroupBy(empty, KeyOf(AudioUploads)) == map[];
    assert empty + [req] == one;
    assert GroupBy(one, KeyOf(AudioUploads)) == GroupBy(empty, KeyOf(AudioUploads))[r := one];
    assert DistinctKeys(one, KeyOf(AudioUploads)) == [r];
    assert ErrorTaskIds(one) == {};
    assert !HasErroredTask(one, {});
  }

  /** The processed upload family of a request followed by its start: one group of two, not pending. */
  lemma UploadGroupOfRequestAndStart(req: Fragment, start: Fragment, r: string)
    requires req.body.AudioUploadRequest? && start.body.AudioUploadStart?
    requires req.body.audioUploadRequestId == r && start.body.audioUploadRequestId == r
    ensures var g := ProcessFragmentGroup([req, start], AudioUploads, ErrorTaskIds([req, start]));
      g.groupedById == map[r := [req, start]] && g.pendingFragments == []
  {
    var one := [req];
    var two := [req, start];
    assert Filter(two, Member(AudioUploads)) == two;
    assert two[..1] == one;
    assert one[..0] == [];
    assert KeyOf(AudioUploads)(req) == r && KeyOf(AudioUploads)(start) == r;
    var empty: seq<Fragment> := [];
    assert GroupBy(empty, KeyOf(AudioUploads)) == map[];
    assert empty + [req] == one;
    assert GroupBy(one, KeyOf(AudioUploads)) == map[r := one];
    assert GroupBy(two, KeyOf(AudioUploads)) == map[r := two];
    assert DistinctKeys(one, KeyOf(AudioUploads)) == [r];
    assert DistinctKeys(two, KeyOf(AudioUploads)) == [r];
  }

  /** The upload life cycle, first step: a request alone opens a pending group of one. */
  lemma UploadRequestOpensGroup(r: string, t: string, earlier: seq<Message>)
    requires GetFragments(earlier) == []
    ensures var req := Plain(AudioUploadRequest(t, r, None, None));
      var s1 := Process(earlier + [Message("1", Assistant, [req], 1)]);
      s1.audioUploads == map[r := [req]] && s1.pendingAudioUploads == [req]
  {
    var req := Plain(AudioUploadRequest(t, r, None, None));
    var m1 := Message("1", Assistant, [req], 1);
    GetFragmentsAppend(earlier, [m1]);
    assert Flatten(Contents([m1])) == [req];
    assert GetFragments(earlier + [m1]) == [req];
    UploadGroupOfRequest(req, r);
    ProcessSelectsFamily(earlier + [m1], AudioUploads);
  }

  /**
   * The upload life cycle, second step: once a start with the same request
   * id follows, the group holds both in order and is no longer pending.
   */
  lemma UploadStartJoinsGroup(r: string, t: string, earlier: seq<Message>)
    requires GetFragments(earlier) == []
    ensures var req := Plain(AudioUploadRequest(t, r, None, None));
      var start := Plain(AudioUploadStart(t, r, None));
      var s2 := Process(earlier + [Message("1", Assistant, [req], 1), Message("2", User, [start], 2)]);
      s2.audioUploads == map[r := [req, start]] && s2.pendingAudioUploads == []
  {
    var req := Plain(AudioUploadRequest(t, r, None, None));
    var start := Plain(AudioUploadStart(t, r, None));
    var m1 := Message("1", Assistant, [req], 1);
    var m2 := Message("2", User, [start], 2);
    GetFragmentsAppend(earlier, [m1, m2]);
    assert Contents([m1, m2]) == [[req], [start]];
    assert [[req], [start]][1..] == [[start]];
    assert Flatten([[start]]) == [start] + Flatten<Fragment>([]);
    assert Flatten([[req], [start]]) == [req, start];
    assert [req, start][1..] == [start];
    assert Filter([req, start], IsMedia) == [req, start];
    assert GetFragments([m1, m2]) == [req, start];
    assert GetFragments(earlier + [m1, m2]) == [req, start];
    UploadGroupOfRequestAndStart(req, start, r);
    ProcessSelectsFamily(earlier + [m1, m2], AudioUploads);
  }
}

// `getArtifactFromLastMessage`: the artifact, if any, that the newest
// assistant message carries, used to open the matching right sidebar.
module Artifacts {
  import opened Wrappers
  import opened ChatTypes
  import SeqUtil

  /** The fragment types that open the artifact sidebar. */
  const ArtifactMessageTypes: seq<string> :=
    ["song_rendering_complete", "quantization_complete", "mixing_complete", "stem_separation_complete",
     "song_composition_complete", "musical_matches", "lyrics_writing"]

  predicate IsArtifact(f: Fragment)
  {
    Tag(f.body) in ArtifactMessageTypes
  }

  /**
   * Nothing for an empty list or a last message not written by the
   * assistant; otherwise the first artifact fragment of the last message.
   */
  function ArtifactFromLastMessage(messages: seq<Message>): (r: Option<Fragment>)
    ensures messages == [] ==> r.None?
    ensures messages != [] && messages[|messages| - 1].role != Assistant ==> r.None?
    ensures r.Some? ==> r.value in messages[|messages| - 1].content && IsArtifact(r.value)
  {
    if |messages| == 0 then None
    else
      var lastMessage := messages[|messages| - 1];
      if lastMessage.role != Assistant then None
      else
        SeqUtil.FindFirstSpec(lastMessage.content, IsArtifact);
        SeqUtil.FindFirst(lastMessage.content, IsArtifact)
  }

  /**
   * For an assistant's last message: nothing exactly when none of its
   * fragments is an artifact, and otherwise the artifact at the first such
   * position.
   */
  lemma ArtifactIsFirstMatch(messages: seq<Message>)
    requires messages != [] && messages[|messages| - 1].role == Assistant
    ensures var content := messages[|messages| - 1].content;
      var r := ArtifactFromLastMessage(messages);
      (r.None? <==> forall i :: 0 <= i < |content| ==> !IsArtifact(content[i]))
      && (r.Some? ==> exists i :: 0 <= i < |content| && content[i] == r.value
                        && forall j :: 0 <= j < i ==> !IsArtifact(content[j]))
  {
    SeqUtil.FindFirstSpec(messages[|messages| - 1].content, IsArtifact);
  }

  /** Messages before the last one are never looked at. */
  lemma OnlyLastMessageInspected(earlier: seq<Message>, other: seq<Message>, last: Message)
    ensures ArtifactFromLastMessage(earlier + [last]) == ArtifactFromLastMessage(other + [last])
  {
    assert (earlier + [last])[|earlier|] == last;
    assert (other + [last])[|other|] == last;
  }

  /** Lyrics and musical matches open the sidebar; an upload completion does not. */
  lemma ArtifactKinds(f: Fragment)
    ensures f.body.LyricsWriting? || f.body.MusicalMatches? ==> IsArtifact(f)
    ensures f.body.AudioUploadComplete? || f.body.Text? ==> !IsArtifact(f)
  {
    if f.body.AudioUploadComplete? {
      assert Tag(f.body) == "audio_upload_complete";
    } else if f.body.Text? {
      assert Tag(f.body) == "text";
    }
  }
}

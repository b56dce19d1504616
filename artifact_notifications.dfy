// `useArtifactNotifications`: whenever the message list changes, one
// desktop notification for every artifact fragment of the newest assistant
// message. The notification service is modelled as the list of sent
// notifications.
module ArtifactNotifications {
  import opened Wrappers
  import opened ChatTypes
  import SeqUtil

  /** The fragment types that raise a notification (not the sidebar's list: uploads yes, matches no). */
  const ArtifactTypes: seq<string> :=
    ["audio_upload_complete", "quantization_complete", "mixing_complete", "stem_separation_complete",
     "song_rendering_complete", "song_composition_complete", "lyrics_writing"]

  predicate IsNotifiable(f: Fragment)
  {
    Tag(f.body) in ArtifactTypes
  }

  datatype Notification = Notification(kind: string, message: string, artifactId: Option<string>)

  /** `getArtifactMessage`: the fixed text per type; the lyrics text names the song. */
  function ArtifactMessage(fragmentType: string, f: Fragment): string
  {
    if fragmentType == "audio_upload_complete" then "Audio upload completed"
    else if fragmentType == "quantization_complete" then "Audio quantization completed"
    else if fragmentType == "mixing_complete" then "Audio mixing completed"
    else if fragmentType == "stem_separation_complete" then "Stem separation completed"
    else if fragmentType == "song_rendering_complete" then "Song rendering completed"
    else if fragmentType == "song_composition_complete" then "Song composition completed"
    else if fragmentType == "lyrics_writing" then
      "Lyrics for \"" + (if f.body.LyricsWriting? then f.body.songName else "undefined") + "\" are ready"
    else "New artifact generated"
  }

  /**
   * `audioId` when the fragment has one, else `butcherId` when it has one,
   * else nothing. The only fragment with a `butcherId` (a rendered song) also
   * has an `audioId`, so the second branch is never taken.
   */
  function ArtifactId(b: Body): (r: Option<string>)
    ensures r.Some? <==> HasAudioId(b) || HasButcherId(b)
    ensures HasAudioId(b) ==> r == Some(b.audioId)
  {
    if HasAudioId(b) then Some(b.audioId)
    else if HasButcherId(b) then assert false; None
    else None
  }

  function NotificationOf(f: Fragment): Notification
  {
    Notification(Tag(f.body), ArtifactMessage(Tag(f.body), f), ArtifactId(f.body))
  }

  /** The notifications for a message's fragments: one per notifiable fragment, in content order. */
  function NotificationsOf(fs: seq<Fragment>): (r: seq<Notification>)
    ensures |r| == |SeqUtil.Filter(fs, IsNotifiable)|
    ensures forall k :: 0 <= k < |r| ==> r[k] == NotificationOf(SeqUtil.Filter(fs, IsNotifiable)[k])
  {
    var hits := SeqUtil.Filter(fs, IsNotifiable);
    seq(|hits|, k requires 0 <= k < |hits| => NotificationOf(hits[k]))
  }

  /** What one run of the effect sends for the given message list. */
  function Notifications(messages: seq<Message>): seq<Notification>
  {
    if messages == [] || messages[|messages| - 1].role != Assistant then []
    else NotificationsOf(messages[|messages| - 1].content)
  }

  lemma NotificationsOfAppend(fs: seq<Fragment>, f: Fragment)
    ensures NotificationsOf(fs + [f]) == NotificationsOf(fs) + (if IsNotifiable(f) then [NotificationOf(f)] else [])
  {
    SeqUtil.FilterAppend(fs, [f], IsNotifiable);
    assert [f][1..] == [];
    assert SeqUtil.Filter([f], IsNotifiable) == if IsNotifiable(f) then [f] else [];
  }

  /** The notification service: every notification sent so far, in order. */
  class Notifier {
    var sent: seq<Notification>

    constructor ()
      ensures sent == []
    {
      sent := [];
    }

    /** The effect body: skip unless the last message is the assistant's, then notify per artifact fragment. */
    method NotifyArtifacts(messages: seq<Message>)
      modifies this
      ensures sent == old(sent) + Notifications(messages)
    {
      if |messages| == 0 {
        return;
      }
      var lastMessage := messages[|messages| - 1];
      if lastMessage.role != Assistant {
        return;
      }
      var content := lastMessage.content;
      var i := 0;
      while i < |content|
        invariant 0 <= i <= |content|
        invariant sent == old(sent) + NotificationsOf(content[..i])
      {
        var fragment := content[i];
        assert content[..i + 1] == content[..i] + [fragment];
        NotificationsOfAppend(content[..i], fragment);
        if Tag(fragment.body) in ArtifactTypes {
          var artifactId: Option<string> := None;
          if HasAudioId(fragment.body) {
            artifactId := Some(fragment.body.audioId);
          } else if HasButcherId(fragment.body) {
            assert false;
          }
          var notificationData := Notification(Tag(fragment.body), ArtifactMessage(Tag(fragment.body), fragment), artifactId);
          sent := sent + [notificationData];
        }
        i := i + 1;
      }
      assert content[..i] == content;
    }
  }

  /** Nothing is sent for an empty list or when the user wrote the last message. */
  lemma NoNotificationWithoutAssistantReply(messages: seq<Message>)
    requires messages == [] || messages[|messages| - 1].role == User
    ensures Notifications(messages) == []
  {
  }

  /** Each notification carries its fragment's type, and the fragments notified about are exactly the notifiable ones. */
  lemma {:induction false} NotificationsMatchFragments(fs: seq<Fragment>)
    ensures forall n :: n in NotificationsOf(fs) ==> n.kind in ArtifactTypes
    ensures forall f :: f in fs && IsNotifiable(f) ==> NotificationOf(f) in NotificationsOf(fs)
  {
    var hits := SeqUtil.Filter(fs, IsNotifiable);
    forall n | n in NotificationsOf(fs) ensures n.kind in ArtifactTypes {
      var k :| 0 <= k < |NotificationsOf(fs)| && NotificationsOf(fs)[k] == n;
      assert hits[k] in hits;
    }
    forall f | f in fs && IsNotifiable(f) ensures NotificationOf(f) in NotificationsOf(fs) {
      SeqUtil.FilterMember(fs, IsNotifiable, f);
      var k :| 0 <= k < |hits| && hits[k] == f;
      assert NotificationsOf(fs)[k] == NotificationOf(f);
    }
  }

  /** The texts of the fixed-message types, and the lyrics text that names its song. */
  lemma MessageTexts(f: Fragment)
    ensures f.body.AudioUploadComplete? ==> NotificationOf(f).message == "Audio upload completed"
    ensures f.body.SongRenderingComplete? ==>
      NotificationOf(f).message == "Song rendering completed" && NotificationOf(f).artifactId == Some(f.body.audioId)
    ensures f.body.LyricsWriting? ==>
      NotificationOf(f).message == "Lyrics for \"" + f.body.songName + "\" are ready" && NotificationOf(f).artifactId == None
    ensures f.body.StemSeparationComplete? ==> NotificationOf(f).artifactId == None
  {
    if f.body.AudioUploadComplete? {
      assert Tag(f.body) == "audio_upload_complete";
    } else if f.body.SongRenderingComplete? {
      assert Tag(f.body) == "song_rendering_complete";
    } else if f.body.LyricsWriting? {
      assert Tag(f.body) == "lyrics_writing";
    }
  }

  /** Upload completions are notified about; musical matches and text are not. */
  lemma NotifiableKinds(f: Fragment)
    ensures f.body.AudioUploadComplete? ==> IsNotifiable(f)
    ensures f.body.MusicalMatches? || f.body.Text? ==> !IsNotifiable(f)
  {
    if f.body.MusicalMatches? {
      assert Tag(f.body) == "musical_matches";
    } else if f.body.Text? {
      assert Tag(f.body) == "text";
    }
  }
}

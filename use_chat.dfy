// The chat mutations: sending a fragment (optimistic append, confirmed
// append, error append), creating and deleting a thread, and the fragment
// builders behind the send helpers. The network replies and the clock are
// parameters; the query cache is the shared `QueryClient`.
module UseChat {
  import opened Wrappers
  import opened ChatTypes
  import opened QueryCache
  import SeqUtil
  import NumberFormat
  import MessageProcessor

  /** One reading of the clock: `Date.now()` and `new Date().toLocaleString('en-US')`. */
  datatype Clock = Clock(millis: nat, localeStamp: string)

  /** `Date.now().toString()`: the id of a locally made message; the decimal text reads back as the clock. */
  function LocalMessageId(c: Clock): (id: string)
    ensures NumberFormat.IsDigits(id) && NumberFormat.ParseDigits(id) == c.millis
  {
    NumberFormat.ParseNatToString(c.millis);
    NumberFormat.NatToString(c.millis)
  }

  /** The reply body of a send: `response.data.message`, possibly missing. */
  datatype SendResponse = SendResponse(message: Option<Message>)

  const InvalidMessageResponse := "Invalid message response"
  const SendFailedText := "Sorry, there was an error sending your message. Please try again."
  const FailedToCreateChat := "Failed to create chat"

  /** The message `onMutate` appends before the server answers. */
  function OptimisticMessage(fragment: Fragment, c: Clock): (m: Message)
    ensures m.role == User && m.content == [fragment] && m.timestamp == c.millis
    ensures m.id == LocalMessageId(c)
  {
    Message(LocalMessageId(c), User, [fragment], c.millis)
  }

  /** The message `onError` appends: one assistant text fragment with the fixed apology. */
  function ErrorReply(c: Clock): (m: Message)
    ensures m.role == Assistant && |m.content| == 1
    ensures m.content[0].body == Text(SendFailedText)
    ensures m.id == LocalMessageId(c) && m.timestamp == c.millis
  {
    Message(LocalMessageId(c), Assistant, [Plain(Text(SendFailedText))], c.millis)
  }

  /**
   * The `['recentThreads']` updater of a send, `{[threadId]: {..., lastMessageAt},
   * ...old}`: since `...old` comes last, an entry already present wins.
   */
  function StampThread(stamps: map<string, string>, threadId: string, stamp: string): (r: map<string, string>)
    ensures r.Keys == stamps.Keys + {threadId}
    ensures forall t :: t in stamps ==> r[t] == stamps[t]
    ensures threadId !in stamps ==> r[threadId] == stamp
  {
    if threadId in stamps then stamps else stamps[threadId := stamp]
  }

  /** Stamping a thread that is already listed changes nothing, however often it is repeated. */
  lemma StampExistingIsIdentity(stamps: map<string, string>, threadId: string, s1: string, s2: string)
    requires threadId in stamps
    ensures StampThread(StampThread(stamps, threadId, s1), threadId, s2) == stamps
  {
  }

  /** `onMutate`: cancel the thread's fetch, then append the optimistic message, then stamp the thread. */
  method OnMutate(qc: QueryClient, threadId: string, fragment: Fragment, c: Clock)
    modifies qc
    ensures qc.log == old(qc.log) + [CancelMessages(threadId), WriteMessages(threadId), WriteRecentThreadStamps]
    ensures qc.messages == old(qc.messages)[threadId := old(qc.MessagesOf(threadId)) + [OptimisticMessage(fragment, c)]]
    ensures qc.recentThreadStamps == StampThread(old(qc.recentThreadStamps), threadId, c.localeStamp)
    ensures qc.recentThreads == old(qc.recentThreads)
  {
    qc.CancelMessageQueries(threadId);
    qc.SetMessages(threadId, qc.MessagesOf(threadId) + [OptimisticMessage(fragment, c)]);
    qc.SetRecentThreadStamps(StampThread(qc.recentThreadStamps, threadId, c.localeStamp));
  }

  /**
   * `mutationFn`: a failed request rejects with its error; a reply without a
   * message rejects with 'Invalid message response'; otherwise the server's
   * message is appended to the thread and returned.
   */
  method MutationFn(qc: QueryClient, threadId: string, response: Result<SendResponse, string>)
    returns (r: Result<Message, string>)
    modifies qc
    ensures response.Failure? ==> r == Failure(response.error)
    ensures response.Success? && response.value.message.None? ==> r == Failure(InvalidMessageResponse)
    ensures response.Success? && response.value.message.Some? ==> r == Success(response.value.message.value)
    ensures r.Failure? ==> qc.messages == old(qc.messages) && qc.log == old(qc.log)
    ensures r.Success? ==> qc.messages == old(qc.messages)[threadId := old(qc.MessagesOf(threadId)) + [r.value]]
    ensures r.Success? ==> qc.log == old(qc.log) + [WriteMessages(threadId)]
    ensures qc.recentThreads == old(qc.recentThreads) && qc.recentThreadStamps == old(qc.recentThreadStamps)
  {
    if response.Failure? {
      return Failure(response.error);
    }
    if response.value.message.None? {
      return Failure(InvalidMessageResponse);
    }
    var m := response.value.message.value;
    qc.SetMessages(threadId, qc.MessagesOf(threadId) + [m]);
    r := Success(m);
  }

  /** `onError`: append the assistant apology; nothing is removed. */
  method OnError(qc: QueryClient, threadId: string, c: Clock)
    modifies qc
    ensures qc.messages == old(qc.messages)[threadId := old(qc.MessagesOf(threadId)) + [ErrorReply(c)]]
    ensures qc.log == old(qc.log) + [WriteMessages(threadId)]
    ensures qc.recentThreads == old(qc.recentThreads) && qc.recentThreadStamps == old(qc.recentThreadStamps)
  {
    qc.SetMessages(threadId, qc.MessagesOf(threadId) + [ErrorReply(c)]);
  }

  /** `onSuccess`: the thread lists are marked stale. */
  method OnSuccess(qc: QueryClient)
    modifies qc
    ensures qc.log == old(qc.log) + [InvalidateRecentThreads]
    ensures qc.messages == old(qc.messages) && qc.recentThreads == old(qc.recentThreads)
    ensures qc.recentThreadStamps == old(qc.recentThreadStamps)
  {
    qc.InvalidateRecentThreadQueries();
  }

  /**
   * The cache events of one send: the cancel, the optimistic write and the
   * stamp, then the reply's write, followed on success by the invalidation.
   */
  function SendLog(threadId: string, succeeded: bool): seq<CacheEvent>
  {
    [CancelMessages(threadId), WriteMessages(threadId), WriteRecentThreadStamps] +
    (if succeeded then [WriteMessages(threadId), InvalidateRecentThreads] else [WriteMessages(threadId)])
  }

  /**
   * One `mutateAsync(fragment)`: `onMutate`, then `mutationFn`, then `onSuccess`
   * or `onError`. `sent` is the clock at the send, `failedAt` the clock when the
   * error is handled. Whatever the reply, the thread's list grows by exactly two
   * (the optimistic entry, then the confirmed message or the apology); the old
   * list stays its prefix and no other thread changes. The result rejects
   * exactly when the mutation fails.
   */
  method SendMessage(qc: QueryClient, threadId: string, fragment: Fragment, sent: Clock,
                     response: Result<SendResponse, string>, failedAt: Clock)
    returns (r: Result<Message, string>)
    modifies qc
    ensures r.Success? <==> response.Success? && response.value.message.Some?
    ensures r.Success? ==> r.value == response.value.message.value
    ensures r.Failure? ==> r.error == (if response.Failure? then response.error else InvalidMessageResponse)
    ensures qc.messages == old(qc.messages)[threadId := old(qc.MessagesOf(threadId)) +
              [OptimisticMessage(fragment, sent), if r.Success? then r.value else ErrorReply(failedAt)]]
    ensures qc.log == old(qc.log) + SendLog(threadId, r.Success?)
    ensures qc.recentThreadStamps == StampThread(old(qc.recentThreadStamps), threadId, sent.localeStamp)
    ensures qc.recentThreads == old(qc.recentThreads)
  {
    ghost var start := qc.messages;
    ghost var startLog := qc.log;
    ghost var before := qc.MessagesOf(threadId);
    ghost var optimistic := OptimisticMessage(fragment, sent);
    OnMutate(qc, threadId, fragment, sent);
    ghost var mid := qc.messages;
    ghost var midLog := qc.log;
    assert qc.MessagesOf(threadId) == before + [optimistic];
    r := MutationFn(qc, threadId, response);
    ghost var reply := if r.Success? then r.value else ErrorReply(failedAt);
    if r.Success? {
      OnSuccess(qc);
    } else {
      OnError(qc, threadId, failedAt);
    }
    assert qc.messages == mid[threadId := before + [optimistic] + [reply]];
    UpdateTwice(start, threadId, before + [optimistic], before + [optimistic] + [reply]);
    SeqUtil.AppendTwo(before, optimistic, reply);
    assert midLog == startLog + [CancelMessages(threadId), WriteMessages(threadId), WriteRecentThreadStamps];
  }

  lemma UpdateTwice<K, V>(m: map<K, V>, k: K, a: V, b: V)
    ensures m[k := a][k := b] == m[k := b]
  {
  }

  // ---------------------------------------------------------------- threads

  /** The body of a create reply; absent keys are `None`. */
  datatype CreateResponse = CreateResponse(threadId: Option<string>, title: Option<string>,
                                           artistId: string, artistName: string,
                                           lastMessageAt: Option<string>)

  /** JavaScript truthiness of an optional string: present and not empty. */
  predicate Truthy(s: Option<string>)
  {
    s.Some? && s.value != ""
  }

  /**
   * `useCreateThread`'s `mutationFn`: a reply without a (truthy) threadId
   * rejects with 'Failed to create chat'; otherwise the thread, whose
   * `lastMessageAt` is the server's when it sends one and the local stamp
   * `now` otherwise.
   */
  function CreateThread(response: Result<CreateResponse, string>, now: string): (r: Result<ThreadDetailsWithId, string>)
    ensures r.Success? <==> response.Success? && Truthy(response.value.threadId)
    ensures response.Failure? ==> r == Failure(response.error)
    ensures response.Success? && !Truthy(response.value.threadId) ==> r == Failure(FailedToCreateChat)
    ensures r.Success? ==> r.value.threadId == response.value.threadId.value
    ensures r.Success? ==> r.value.details.lastMessageAt == response.value.lastMessageAt.UnwrapOr(now)
    ensures r.Success? ==> r.value.details.artistId == response.value.artistId &&
                           r.value.details.artistName == response.value.artistName &&
                           r.value.details.title == response.value.title
  {
    if response.Failure? then Failure(response.error)
    else if !Truthy(response.value.threadId) then Failure(FailedToCreateChat)
    else
      var d := response.value;
      Success(ThreadDetailsWithId(d.threadId.value,
                                  ThreadDetails(d.title, d.artistId, d.artistName, d.lastMessageAt.UnwrapOr(now))))
  }

  /** The entry stored under a thread id in an artist's thread record, if any. */
  function Lookup(entries: seq<ThreadDetailsWithId>, id: string): Option<ThreadDetailsWithId>
  {
    if entries == [] then None
    else if entries[0].threadId == id then Some(entries[0])
    else Lookup(entries[1..], id)
  }

  function OtherThan(id: string): ThreadDetailsWithId -> bool
  {
    (e: ThreadDetailsWithId) => e.threadId != id
  }

  /**
   * `{[data.threadId]: data, ...old}` on a record kept in key order: the id
   * comes first, holding the old entry if there was one and `data` otherwise,
   * and the other entries follow in their old order.
   */
  function PrependThread(entries: seq<ThreadDetailsWithId>, data: ThreadDetailsWithId): (r: seq<ThreadDetailsWithId>)
    ensures |r| >= 1 && r[0].threadId == data.threadId
  {
    LookupFinds(entries, data.threadId);
    [Lookup(entries, data.threadId).UnwrapOr(data)] + SeqUtil.Filter(entries, OtherThan(data.threadId))
  }

  lemma {:induction false} LookupFinds(entries: seq<ThreadDetailsWithId>, id: string)
    ensures Lookup(entries, id).Some? ==> Lookup(entries, id).value.threadId == id
    ensures Lookup(entries, id).Some? <==> exists e :: e in entries && e.threadId == id
  {
    if entries != [] {
      LookupFinds(entries[1..], id);
      assert forall e :: e in entries <==> e == entries[0] || e in entries[1..];
    }
  }

  lemma {:induction false} LookupOthers(entries: seq<ThreadDetailsWithId>, drop: string, id: string)
    ensures Lookup(SeqUtil.Filter(entries, OtherThan(drop)), id) == (if id == drop then None else Lookup(entries, id))
  {
    if entries != [] {
      LookupOthers(entries[1..], drop, id);
      if entries[0].threadId == drop {
        assert SeqUtil.Filter(entries, OtherThan(drop)) == SeqUtil.Filter(entries[1..], OtherThan(drop));
      } else {
        var f := SeqUtil.Filter(entries, OtherThan(drop));
        assert f == [entries[0]] + SeqUtil.Filter(entries[1..], OtherThan(drop));
        assert f[1..] == SeqUtil.Filter(entries[1..], OtherThan(drop));
      }
    }
  }

  /**
   * Looking up any id after the prepend: the new id maps to its old entry when
   * it had one and to `data` otherwise; every other id keeps its entry (or its
   * absence).
   */
  lemma PrependThreadLookup(entries: seq<ThreadDetailsWithId>, data: ThreadDetailsWithId, id: string)
    ensures Lookup(PrependThread(entries, data), id) ==
            (if id == data.threadId then Some(Lookup(entries, id).UnwrapOr(data)) else Lookup(entries, id))
  {
    var r := PrependThread(entries, data);
    LookupFinds(entries, data.threadId);
    if id != data.threadId {
      LookupOthers(entries, data.threadId, id);
      assert r[1..] == SeqUtil.Filter(entries, OtherThan(data.threadId));
    }
  }

  /** `useCreateThread`: on success the thread is prepended to `['recentThreads', artistId]`. */
  method CreateThreadMutation(qc: QueryClient, artistId: string, response: Result<CreateResponse, string>, now: string)
    returns (r: Result<ThreadDetailsWithId, string>)
    modifies qc
    ensures r == CreateThread(response, now)
    ensures r.Success? ==> qc.recentThreads == old(qc.recentThreads)[artistId := PrependThread(old(qc.ThreadsOf(artistId)), r.value)]
    ensures r.Success? ==> qc.log == old(qc.log) + [WriteRecentThreads(artistId)]
    ensures r.Failure? ==> qc.recentThreads == old(qc.recentThreads) && qc.log == old(qc.log)
    ensures qc.messages == old(qc.messages) && qc.recentThreadStamps == old(qc.recentThreadStamps)
  {
    r := CreateThread(response, now);
    if r.Success? {
      qc.SetRecentThreads(artistId, PrependThread(qc.ThreadsOf(artistId), r.value));
    }
  }

  /** `useDeleteThread`: on success the thread lists are marked stale and the thread's messages are dropped. */
  method DeleteThreadMutation(qc: QueryClient, thread: ThreadDetailsWithId, response: Result<(), string>)
    returns (r: Result<(), string>)
    modifies qc
    ensures r == response
    ensures r.Success? ==> qc.messages == old(qc.messages) - {thread.threadId}
    ensures r.Success? ==> qc.MessagesOf(thread.threadId) == []
    ensures r.Success? ==> qc.log == old(qc.log) + [InvalidateRecentThreads, RemoveMessages(thread.threadId)]
    ensures r.Failure? ==> qc.messages == old(qc.messages) && qc.log == old(qc.log)
    ensures qc.recentThreads == old(qc.recentThreads) && qc.recentThreadStamps == old(qc.recentThreadStamps)
  {
    r := response;
    if r.Success? {
      qc.InvalidateRecentThreadQueries();
      qc.RemoveMessageQueries(thread.threadId);
    }
  }

  // ---------------------------------------------------------------- builders

  function TextFragment(text: string): (f: Fragment)
    ensures Tag(f.body) == "text" && f.body.text == text
  {
    Plain(Text(text))
  }

  function SketchUploadStartFragment(audioUploadRequestId: string, taskId: string, fileName: string): (f: Fragment)
    ensures Tag(f.body) == "audio_upload_start"
    ensures f.body.audioUploadRequestId == audioUploadRequestId && f.body.taskId == taskId
    ensures f.body.fileName == Some(fileName)
  {
    Plain(AudioUploadStart(taskId, audioUploadRequestId, Some(fileName)))
  }

  function SketchUploadCompleteFragment(audioUploadRequestId: string, taskId: string, audioId: string,
                                        songName: string): (f: Fragment)
    ensures Tag(f.body) == "audio_upload_complete"
    ensures f.body.audioUploadRequestId == audioUploadRequestId && f.body.taskId == taskId
    ensures f.body.audioId == audioId && f.body.uploadedSongName == Some(songName)
  {
    Plain(AudioUploadComplete(taskId, audioUploadRequestId, audioId, Some(songName)))
  }

  function ReferenceSelectionFragment(referenceId: string, referenceCandidatesId: string, optionNumber: int): (f: Fragment)
    ensures Tag(f.body) == "reference_selection"
    ensures f.body.referenceId == referenceId && f.body.referenceCandidatesId == referenceCandidatesId
    ensures f.body.optionNumber == optionNumber
  {
    Plain(ReferenceSelection(referenceCandidatesId, referenceId, optionNumber))
  }

  function SongRenderingCompleteFragment(audioId: string, taskId: string, butcherId: string): (f: Fragment)
    ensures Tag(f.body) == "song_rendering_complete"
    ensures f.body.audioId == audioId && f.body.taskId == taskId && f.body.butcherId == butcherId
  {
    Plain(SongRenderingComplete(taskId, audioId, butcherId))
  }

  function QuantizationCompleteFragment(audioId: string, taskId: string): (f: Fragment)
    ensures Tag(f.body) == "quantization_complete" && f.body.audioId == audioId && f.body.taskId == taskId
  {
    Plain(QuantizationComplete(taskId, audioId))
  }

  function MixingCompleteFragment(audioId: string, taskId: string): (f: Fragment)
    ensures Tag(f.body) == "mixing_complete" && f.body.audioId == audioId && f.body.taskId == taskId
  {
    Plain(MixingComplete(taskId, audioId))
  }

  function SongCompositionCompleteFragment(audioId: string, taskId: string): (f: Fragment)
    ensures Tag(f.body) == "song_composition_complete" && f.body.audioId == audioId && f.body.taskId == taskId
  {
    Plain(SongCompositionComplete(taskId, audioId))
  }

  /** The three error codes the backend understands. */
  predicate KnownErrorCode(code: string)
  {
    code == "NoChordsSnapped" || code == "UnsupportedTimeSignature" || code == "NoBeatsFound"
  }

  /** `sendError`'s code normalisation: a known code is kept verbatim, every other one becomes 'Unknown'. */
  function NormalizeErrorCode(code: string): (r: string)
    ensures KnownErrorCode(code) ==> r == code
    ensures !KnownErrorCode(code) ==> r == "Unknown"
  {
    if KnownErrorCode(code) then code else "Unknown"
  }

  /** Normalising twice is normalising once, and 'Unknown' is not itself a known code. */
  lemma NormalizeErrorCodeIdempotent(code: string)
    ensures NormalizeErrorCode(NormalizeErrorCode(code)) == NormalizeErrorCode(code)
    ensures !KnownErrorCode("Unknown")
  {
  }

  function ErrorFragment(error: string, taskId: string): (f: Fragment)
    ensures Tag(f.body) == "error" && f.body.taskId == taskId
    ensures f.body.error == NormalizeErrorCode(error)
  {
    Plain(Error(NormalizeErrorCode(error), taskId))
  }

  /** Once in a thread, an upload start and an upload completion join the request's group. */
  lemma UploadBuildersJoinRequest(audioUploadRequestId: string, taskId: string, audioId: string, name: string)
    ensures var f := SketchUploadStartFragment(audioUploadRequestId, taskId, name);
            MessageProcessor.InFamily(MessageProcessor.AudioUploads, f) &&
            MessageProcessor.GroupKey(MessageProcessor.AudioUploads, f) == audioUploadRequestId
    ensures var f := SketchUploadCompleteFragment(audioUploadRequestId, taskId, audioId, name);
            MessageProcessor.InFamily(MessageProcessor.AudioUploads, f) &&
            MessageProcessor.GroupKey(MessageProcessor.AudioUploads, f) == audioUploadRequestId
  {
  }

  /** Once in a thread, a reference selection joins its candidates' group. */
  lemma SelectionJoinsCandidates(referenceId: string, referenceCandidatesId: string, option: int)
    ensures var f := ReferenceSelectionFragment(referenceId, referenceCandidatesId, option);
            MessageProcessor.InFamily(MessageProcessor.References, f) &&
            MessageProcessor.GroupKey(MessageProcessor.References, f) == referenceCandidatesId
  {
  }

  /** Once in a thread, each completion joins its family's group under the task id it was built with. */
  lemma CompletionsJoinTheirTasks(audioId: string, taskId: string, butcherId: string)
    ensures var f := SongRenderingCompleteFragment(audioId, taskId, butcherId);
            MessageProcessor.InFamily(MessageProcessor.SongRenderings, f) &&
            MessageProcessor.GroupKey(MessageProcessor.SongRenderings, f) == taskId
    ensures var f := QuantizationCompleteFragment(audioId, taskId);
            MessageProcessor.InFamily(MessageProcessor.Quantizations, f) &&
            MessageProcessor.GroupKey(MessageProcessor.Quantizations, f) == taskId
    ensures var f := MixingCompleteFragment(audioId, taskId);
            MessageProcessor.InFamily(MessageProcessor.Mixings, f) &&
            MessageProcessor.GroupKey(MessageProcessor.Mixings, f) == taskId
    ensures var f := SongCompositionCompleteFragment(audioId, taskId);
            MessageProcessor.InFamily(MessageProcessor.SongCompositions, f) &&
            MessageProcessor.GroupKey(MessageProcessor.SongCompositions, f) == taskId
  {
    MessageProcessor.GuardsMatchKinds(SongRenderingCompleteFragment(audioId, taskId, butcherId));
    MessageProcessor.GuardsMatchKinds(QuantizationCompleteFragment(audioId, taskId));
    MessageProcessor.GuardsMatchKinds(MixingCompleteFragment(audioId, taskId));
    MessageProcessor.GuardsMatchKinds(SongCompositionCompleteFragment(audioId, taskId));
  }
}

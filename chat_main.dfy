// The chat view's projection of a thread: fake-assistant rewriting, the
// `done` annotation of every fragment from its group, the open upload
// request, and the pending-messages poll loop that merges server-side
// replies into the cached thread.
module ChatMain {
  import opened Wrappers
  import opened ChatTypes
  import opened QueryCache
  import opened SeqUtil
  import JsString
  import MessageProcessor

  // ------------------------------------------------------------ fake assistant

  /** Completion kinds the client itself sends but that read as assistant turns. */
  const FakeAssistantTypes: seq<string> :=
    ["song_rendering_complete", "stem_separation_complete", "quantization_complete",
     "mixing_complete", "song_composition_complete"]

  predicate IsFakeAssistant(f: Fragment)
  {
    Tag(f.body) in FakeAssistantTypes
  }

  lemma FakeAssistantKindsEarly(f: Fragment)
    requires MessageProcessor.EarlyKind(f.body)
    ensures IsFakeAssistant(f) <==>
      f.body.SongRenderingComplete? || f.body.StemSeparationComplete? || f.body.QuantizationComplete? ||
      f.body.MixingComplete? || f.body.SongCompositionComplete?
  {
    if f.body.Text? {
      assert Tag(f.body) !in FakeAssistantTypes;
    } else if f.body.Error? {
      assert Tag(f.body) !in FakeAssistantTypes;
    } else if f.body.AudioUploadRequest? {
      assert Tag(f.body) !in FakeAssistantTypes;
    } else if f.body.AudioUploadStart? {
      assert Tag(f.body) !in FakeAssistantTypes;
    } else if f.body.AudioUploadComplete? {
      assert Tag(f.body) !in FakeAssistantTypes;
    } else if f.body.AudioAnalysisStart? {
      assert Tag(f.body) !in FakeAssistantTypes;
    } else if f.body.AudioAnalysisComplete? {
      assert Tag(f.body) !in FakeAssistantTypes;
    } else if f.body.ReferenceCandidates? {
      assert Tag(f.body) !in FakeAssistantTypes;
    } else if f.body.ReferenceSelection? {
      assert Tag(f.body) !in FakeAssistantTypes;
    } else {
      assert Tag(f.body) !in FakeAssistantTypes;
    }
  }

  lemma FakeAssistantKindsLate(f: Fragment)
    requires !MessageProcessor.EarlyKind(f.body)
    ensures IsFakeAssistant(f) <==>
      f.body.SongRenderingComplete? || f.body.StemSeparationComplete? || f.body.QuantizationComplete? ||
      f.body.MixingComplete? || f.body.SongCompositionComplete?
  {
    if f.body.SongRenderingComplete? {
      assert Tag(f.body) == FakeAssistantTypes[0];
    } else if f.body.QuantizationStart? {
      assert Tag(f.body) !in FakeAssistantTypes;
    } else if f.body.QuantizationComplete? {
      assert Tag(f.body) == FakeAssistantTypes[2];
    } else if f.body.MixingStart? {
      assert Tag(f.body) !in FakeAssistantTypes;
    } else if f.body.MixingComplete? {
      assert Tag(f.body) == FakeAssistantTypes[3];
    } else if f.body.StemSeparationStart? {
      assert Tag(f.body) !in FakeAssistantTypes;
    } else if f.body.StemSeparationComplete? {
      assert Tag(f.body) == FakeAssistantTypes[1];
    } else if f.body.SongCompositionStart? {
      assert Tag(f.body) !in FakeAssistantTypes;
    } else if f.body.SongCompositionComplete? {
      assert Tag(f.body) == FakeAssistantTypes[4];
    } else if f.body.LyricsWriting? {
      assert Tag(f.body) !in FakeAssistantTypes;
    } else {
      assert Tag(f.body) !in FakeAssistantTypes;
    }
  }

  /** The fake-assistant list names exactly the five completion kinds. */
  lemma FakeAssistantKinds(f: Fragment)
    ensures IsFakeAssistant(f) <==>
      f.body.SongRenderingComplete? || f.body.StemSeparationComplete? || f.body.QuantizationComplete? ||
      f.body.MixingComplete? || f.body.SongCompositionComplete?
  {
    if MessageProcessor.EarlyKind(f.body) {
      FakeAssistantKindsEarly(f);
    } else {
      FakeAssistantKindsLate(f);
    }
  }

  /** `message.content.some(fragment => fakeAssistantMessageTypes.includes(fragment.type))`. */
  predicate HasFakeAssistant(m: Message)
  {
    exists i :: 0 <= i < |m.content| && IsFakeAssistant(m.content[i])
  }

  /** Survivors of the filter: everything but a user message holding a fake-assistant fragment. */
  predicate Kept(m: Message)
  {
    !(m.role == User && HasFakeAssistant(m))
  }

  // ------------------------------------------------------------ annotation

  /**
   * The family checks of the annotation, in the order they are tried:
   * uploads, song renderings, quantizations, analyses, mixings, compositions,
   * stem separations, references.
   */
  const CheckOrder: seq<MessageProcessor.Family> :=
    [MessageProcessor.AudioUploads, MessageProcessor.SongRenderings, MessageProcessor.Quantizations,
     MessageProcessor.Analyses, MessageProcessor.Mixings, MessageProcessor.SongCompositions,
     MessageProcessor.StemSeparations, MessageProcessor.References]

  /**
   * The test each check makes: the request-id field for uploads, the
   * candidates-id field for references, a taskId plus the type prefix for
   * every task family.
   */
  predicate CheckApplies(fam: MessageProcessor.Family, b: Body)
  {
    match fam
    case AudioUploads => HasAudioUploadRequestId(b)
    case References => HasReferenceCandidatesId(b)
    case SongRenderings => HasTaskId(b) && JsString.StartsWith(Tag(b), "song_rendering")
    case Quantizations => HasTaskId(b) && JsString.StartsWith(Tag(b), "quantization")
    case Analyses => HasTaskId(b) && JsString.StartsWith(Tag(b), "audio_analysis")
    case Mixings => HasTaskId(b) && JsString.StartsWith(Tag(b), "mixing")
    case SongCompositions => HasTaskId(b) && JsString.StartsWith(Tag(b), "song_composition")
    case StemSeparations => HasTaskId(b) && JsString.StartsWith(Tag(b), "stem_separation")
  }

  /** The field a check looks its group up by. */
  function CheckKey(fam: MessageProcessor.Family, b: Body): string
    requires CheckApplies(fam, b)
  {
    match fam
    case AudioUploads => b.audioUploadRequestId
    case References => b.referenceCandidatesId
    case _ => b.taskId
  }

  /** Each check accepts only fragments of its own family and looks them up by their group key. */
  lemma CheckMatchesFamily(fam: MessageProcessor.Family, f: Fragment)
    ensures CheckApplies(fam, f.body) ==>
      MessageProcessor.InFamily(fam, f) && CheckKey(fam, f.body) == MessageProcessor.GroupKey(fam, f)
    ensures MessageProcessor.InFamily(fam, f) ==> CheckApplies(fam, f.body)
  {
    MessageProcessor.GuardsMatchKinds(f);
  }

  /** The size of the group found by the first check (from `order`) that applies and finds one. */
  function FirstGroupSize(state: MessageProcessor.ChatState, order: seq<MessageProcessor.Family>, b: Body): Option<nat>
  {
    if order == [] then None
    else if CheckApplies(order[0], b) && CheckKey(order[0], b) in MessageProcessor.Groups(state, order[0]) then
      Some(|MessageProcessor.Groups(state, order[0])[CheckKey(order[0], b)]|)
    else FirstGroupSize(state, order[1..], b)
  }

  /** One fragment of `_processMessages`: ids added, and `done = size > 1` when a check finds its group. */
  function AnnotateFragment(state: MessageProcessor.ChatState, messageId: string, threadId: string, f: Fragment): (r: Fragment)
    ensures r.body == f.body && r.messageId == Some(messageId) && r.threadId == Some(threadId)
  {
    var g := f.(messageId := Some(messageId), threadId := Some(threadId));
    match FirstGroupSize(state, CheckOrder, f.body)
    case Some(n) => g.(done := Some(n > 1))
    case None => g
  }

  function AnnotateMessage(state: MessageProcessor.ChatState, threadId: string, m: Message): Message
  {
    m.(role := if HasFakeAssistant(m) then Assistant else m.role,
       content := seq(|m.content|, i requires 0 <= i < |m.content| => AnnotateFragment(state, m.id, threadId, m.content[i])))
  }

  /** `_processMessages`: drop fake-assistant user messages, rewrite roles, annotate every fragment. */
  function ProcessMessages(messages: seq<Message>, state: MessageProcessor.ChatState, threadId: string): seq<Message>
  {
    var kept := Filter(messages, Kept);
    seq(|kept|, i requires 0 <= i < |kept| => AnnotateMessage(state, threadId, kept[i]))
  }

  /**
   * The survivors are exactly the kept messages, in their order; the role
   * rewrite changes no survivor's role, and each keeps its id, timestamp and
   * fragment bodies in order, every fragment now carrying the message and
   * thread ids.
   */
  lemma ProcessMessagesShape(messages: seq<Message>, state: MessageProcessor.ChatState, threadId: string, m: Message)
    ensures var r := ProcessMessages(messages, state, threadId);
      var kept := Filter(messages, Kept);
      |r| == |kept| && IsSubsequence(kept, messages) &&
      (m in kept <==> m in messages && Kept(m)) &&
      forall i :: 0 <= i < |r| ==>
        r[i].id == kept[i].id && r[i].role == kept[i].role && r[i].timestamp == kept[i].timestamp &&
        |r[i].content| == |kept[i].content| &&
        forall j :: 0 <= j < |r[i].content| ==>
          r[i].content[j].body == kept[i].content[j].body &&
          r[i].content[j].messageId == Some(kept[i].id) && r[i].content[j].threadId == Some(threadId)
  {
    var kept := Filter(messages, Kept);
    FilterIsSubsequence(messages, Kept);
    FilterMember(messages, Kept, m);
    forall i | 0 <= i < |kept|
      ensures (if HasFakeAssistant(kept[i]) then Assistant else kept[i].role) == kept[i].role
    {
      assert kept[i] in kept;
    }
  }

  /** A user message with a fake-assistant fragment never survives. */
  lemma FakeUserMessagesDropped(messages: seq<Message>, state: MessageProcessor.ChatState, threadId: string)
    ensures forall m :: m in Filter(messages, Kept) ==> !(m.role == User && HasFakeAssistant(m))
  {
  }

  /** No check before `fam`'s own applies to a fragment of family fam. */
  lemma {:induction false} FirstGroupSizeOfFamily(state: MessageProcessor.ChatState, order: seq<MessageProcessor.Family>,
                                                   f: Fragment, fam: MessageProcessor.Family)
    requires MessageProcessor.InFamily(fam, f) && fam in order
    requires MessageProcessor.GroupKey(fam, f) in MessageProcessor.Groups(state, fam)
    ensures FirstGroupSize(state, order, f.body) == Some(|MessageProcessor.Groups(state, fam)[MessageProcessor.GroupKey(fam, f)]|)
  {
    CheckMatchesFamily(fam, f);
    CheckMatchesFamily(order[0], f);
    if order[0] != fam {
      if CheckApplies(order[0], f.body) {
        MessageProcessor.FamiliesDisjoint(f, order[0], fam);
      }
      FirstGroupSizeOfFamily(state, order[1..], f, fam);
    }
  }

  /**
   * The cardinality rule: when the state is the thread's processed state, a
   * thread fragment of a family is annotated `done` exactly when its group
   * has more than one fragment.
   */
  lemma AnnotateDone(messages: seq<Message>, messageId: string, threadId: string, f: Fragment, fam: MessageProcessor.Family)
    requires f in MessageProcessor.GetFragments(messages) && MessageProcessor.InFamily(fam, f)
    ensures var state := MessageProcessor.Process(messages);
      var g := MessageProcessor.Groups(state, fam);
      MessageProcessor.GroupKey(fam, f) in g &&
      AnnotateFragment(state, messageId, threadId, f).done == Some(|g[MessageProcessor.GroupKey(fam, f)]| > 1)
  {
    var state := MessageProcessor.Process(messages);
    MessageProcessor.ProcessGroupsCharacterization(messages, fam, MessageProcessor.GroupKey(fam, f), f);
    AnnotateGrouped(state, messageId, threadId, f, fam);
  }

  /** In any state holding the fragment's group, the fragment is annotated `done` exactly when that group has more than one fragment. */
  lemma AnnotateGrouped(state: MessageProcessor.ChatState, messageId: string, threadId: string,
                        f: Fragment, fam: MessageProcessor.Family)
    requires MessageProcessor.InFamily(fam, f) && MessageProcessor.GroupKey(fam, f) in MessageProcessor.Groups(state, fam)
    ensures AnnotateFragment(state, messageId, threadId, f).done
      == Some(|MessageProcessor.Groups(state, fam)[MessageProcessor.GroupKey(fam, f)]| > 1)
  {
    FirstGroupSizeOfFamily(state, CheckOrder, f, fam);
  }

  lemma {:induction false} FirstGroupSizeUngrouped(state: MessageProcessor.ChatState, order: seq<MessageProcessor.Family>, f: Fragment)
    requires forall fam :: !MessageProcessor.InFamily(fam, f)
    ensures FirstGroupSize(state, order, f.body).None?
  {
    if order != [] {
      CheckMatchesFamily(order[0], f);
      FirstGroupSizeUngrouped(state, order[1..], f);
    }
  }

  /** A fragment of no family (text, error, lyrics, matches) only gains the two ids; its `done` is kept. */
  lemma AnnotateUngrouped(state: MessageProcessor.ChatState, messageId: string, threadId: string, f: Fragment)
    requires f.body.Text? || f.body.Error? || f.body.LyricsWriting? || f.body.MusicalMatches?
    ensures AnnotateFragment(state, messageId, threadId, f) == f.(messageId := Some(messageId), threadId := Some(threadId))
  {
    forall fam: MessageProcessor.Family ensures !MessageProcessor.InFamily(fam, f) {
      MessageProcessor.UngroupedKinds(f, fam);
    }
    FirstGroupSizeUngrouped(state, CheckOrder, f);
  }

  /** An upload fragment whose request id heads the only upload group is shown done exactly when that group has grown past one. */
  lemma AnnotateUploadGroup(state: MessageProcessor.ChatState, messageId: string, threadId: string,
                            f: Fragment, group: seq<Fragment>)
    requires MessageProcessor.IsAudioUpload(f)
    requires state.audioUploads == map[f.body.audioUploadRequestId := group]
    ensures AnnotateFragment(state, messageId, threadId, f).done == Some(|group| > 1)
  {
    FirstGroupSizeOfFamily(state, CheckOrder, f, MessageProcessor.AudioUploads);
  }

  /** An upload request alone is shown not done. */
  lemma UploadRequestShownPending(r: string, t: string)
    ensures var req := Plain(AudioUploadRequest(t, r, None, None));
      var m1 := Message("1", Assistant, [req], 1);
      AnnotateFragment(MessageProcessor.Process([m1]), "1", "th", req).done == Some(false)
  {
    var req := Plain(AudioUploadRequest(t, r, None, None));
    var m1 := Message("1", Assistant, [req], 1);
    var none: seq<Message> := [];
    MessageProcessor.UploadRequestOpensGroup(r, t, none);
    assert none + [m1] == [m1];
    AnnotateUploadGroup(MessageProcessor.Process([m1]), "1", "th", req, [req]);
  }

  /** A request followed by its start: the thread of the two lemmas below. */
  function RequestThenStart(r: string, t: string): seq<Message>
  {
    [Message("1", Assistant, [Plain(AudioUploadRequest(t, r, None, None))], 1),
     Message("2", User, [Plain(AudioUploadStart(t, r, None))], 2)]
  }

  lemma RequestThenStartGroup(r: string, t: string)
    ensures MessageProcessor.Process(RequestThenStart(r, t)).audioUploads ==
      map[r := [Plain(AudioUploadRequest(t, r, None, None)), Plain(AudioUploadStart(t, r, None))]]
  {
    var none: seq<Message> := [];
    MessageProcessor.UploadStartJoinsGroup(r, t, none);
    assert none + RequestThenStart(r, t) == RequestThenStart(r, t);
  }

  /** Once the start of that upload arrives the group has two fragments, so the start is shown done. */
  lemma UploadStartShownDone(r: string, t: string)
    ensures var start := Plain(AudioUploadStart(t, r, None));
      AnnotateFragment(MessageProcessor.Process(RequestThenStart(r, t)), "2", "th", start).done == Some(true)
  {
    var req := Plain(AudioUploadRequest(t, r, None, None));
    var start := Plain(AudioUploadStart(t, r, None));
    RequestThenStartGroup(r, t);
    AnnotateUploadGroup(MessageProcessor.Process(RequestThenStart(r, t)), "2", "th", start, [req, start]);
  }

  /** After the start arrives, the request itself is shown done as well, before any completion. */
  lemma UploadRequestShownDoneAfterStart(r: string, t: string)
    ensures var req := Plain(AudioUploadRequest(t, r, None, None));
      AnnotateFragment(MessageProcessor.Process(RequestThenStart(r, t)), "1", "th", req).done == Some(true)
  {
    var req := Plain(AudioUploadRequest(t, r, None, None));
    var start := Plain(AudioUploadStart(t, r, None));
    RequestThenStartGroup(r, t);
    AnnotateUploadGroup(MessageProcessor.Process(RequestThenStart(r, t)), "1", "th", req, [req, start]);
  }

  // ------------------------------------------------------------ open upload request

  function AllFragments(messages: seq<Message>): seq<Fragment>
  {
    Flatten(MessageProcessor.Contents(messages))
  }

  predicate IsUploadRequest(f: Fragment)
  {
    f.body.AudioUploadRequest?
  }

  /** Some fragment of `all` is an upload completion for request id `id`. */
  predicate HasComplete(all: seq<Fragment>, id: string)
  {
    exists j :: 0 <= j < |all| && all[j].body.AudioUploadComplete? && all[j].body.audioUploadRequestId == id
  }

  /** A request none of whose completions appears in `all`. */
  function OpenIn(all: seq<Fragment>): Fragment -> bool
  {
    (f: Fragment) => !(HasAudioUploadRequestId(f.body) && HasComplete(all, f.body.audioUploadRequestId))
  }

  /** `activeUploadRequest`: the requests newest first, the first with no completion anywhere in the thread. */
  function ActiveUploadRequest(messages: seq<Message>): Option<Fragment>
  {
    var all := AllFragments(messages);
    FindFirst(Reverse(Filter(all, IsUploadRequest)), OpenIn(all))
  }

  /**
   * The active request is the request at the last position of the thread that
   * has no completion; every later request has one. There is none exactly
   * when every request of the thread has been completed.
   */
  lemma ActiveUploadRequestSpec(messages: seq<Message>)
    ensures var all := AllFragments(messages);
      (ActiveUploadRequest(messages).None? <==>
        forall i :: 0 <= i < |all| && all[i].body.AudioUploadRequest? ==>
          HasComplete(all, all[i].body.audioUploadRequestId))
    ensures var all := AllFragments(messages);
      ActiveUploadRequest(messages).Some? ==>
        var r := ActiveUploadRequest(messages).value;
        r.body.AudioUploadRequest? && !HasComplete(all, r.body.audioUploadRequestId) &&
        exists i :: 0 <= i < |all| && all[i] == r &&
          forall j :: i < j < |all| && all[j].body.AudioUploadRequest? ==>
            HasComplete(all, all[j].body.audioUploadRequestId)
  {
    var all := AllFragments(messages);
    var p := Both(IsUploadRequest, OpenIn(all));
    FindFirstReverseFilter(all, IsUploadRequest, OpenIn(all));
    FindLastSpec(all, p);
  }

  // ------------------------------------------------------------ pending-messages poll loop

  /** One entry of a pending-messages reply. */
  datatype PendingResult = PendingResult(status: string, message: Option<Message>)

  const MaxPollIterations: nat := 10000

  /** `response.data.find(res => res.message)?.message`. */
  function FirstResolved(rs: seq<PendingResult>): Option<Message>
  {
    if rs == [] then None
    else if rs[0].message.Some? then rs[0].message
    else FirstResolved(rs[1..])
  }

  /** The resolved message is the message of the first entry that has one; there is none exactly when no entry has one. */
  lemma {:induction false} FirstResolvedSpec(rs: seq<PendingResult>)
    ensures FirstResolved(rs).Some? <==> exists i :: 0 <= i < |rs| && rs[i].message.Some?
    ensures FirstResolved(rs).Some? ==>
      exists i :: 0 <= i < |rs| && rs[i].message == FirstResolved(rs) && forall j :: 0 <= j < i ==> rs[j].message.None?
  {
    if rs != [] && rs[0].message.None? {
      FirstResolvedSpec(rs[1..]);
      assert forall i :: 1 <= i < |rs| ==> rs[i] == rs[1..][i - 1];
      if FirstResolved(rs).Some? {
        var i :| 0 <= i < |rs[1..]| && rs[1..][i].message == FirstResolved(rs) &&
          forall j :: 0 <= j < i ==> rs[1..][j].message.None?;
        assert rs[i + 1].message == FirstResolved(rs);
      }
    }
  }

  /**
   * The replies of the server, call by call: the k-th call (k = 0, 1, ...)
   * answers `fetch(k)`, where `Failure` is a rejected request.
   */
  type Replies = nat -> Result<seq<PendingResult>, string>

  /** Call k ends the loop: it was rejected, came back empty, or the effect was cleaned up while it ran. */
  predicate StopsAt(fetch: Replies, cleanupAt: Option<nat>, k: nat)
  {
    fetch(k).Failure? || |fetch(k).value| == 0 || cleanupAt == Some(k)
  }

  /** How many calls the loop makes from iteration i on. */
  function PollCalls(fetch: Replies, cleanupAt: Option<nat>, i: nat): nat
    decreases MaxPollIterations - i
  {
    if i >= MaxPollIterations then 0
    else if StopsAt(fetch, cleanupAt, i) then 1
    else 1 + PollCalls(fetch, cleanupAt, i + 1)
  }

  /** What call k merges: the first resolved message of a non-empty reply, nothing otherwise. */
  function Merged(r: Result<seq<PendingResult>, string>): seq<Message>
  {
    if r.Success? && FirstResolved(r.value).Some? then [FirstResolved(r.value).value] else []
  }

  /** Everything the first n calls merge, in call order. */
  function PollMerged(fetch: Replies, n: nat): seq<Message>
  {
    if n == 0 then [] else PollMerged(fetch, n - 1) + Merged(fetch(n - 1))
  }

  /**
   * Bounds of the loop: from iteration i < 10000 at least one and at most
   * 10000 - i calls are made, and a cleanup during call c allows no call
   * after it.
   */
  lemma {:induction false} PollCallsBounds(fetch: Replies, cleanupAt: Option<nat>, i: nat)
    ensures PollCalls(fetch, cleanupAt, i) <= if i >= MaxPollIterations then 0 else MaxPollIterations - i
    ensures i < MaxPollIterations ==> PollCalls(fetch, cleanupAt, i) >= 1
    ensures cleanupAt.Some? && i <= cleanupAt.value ==> PollCalls(fetch, cleanupAt, i) <= cleanupAt.value - i + 1
    decreases MaxPollIterations - i
  {
    if i < MaxPollIterations && !StopsAt(fetch, cleanupAt, i) {
      PollCallsBounds(fetch, cleanupAt, i + 1);
    }
  }

  /**
   * The loop stops at the first stopping call: if calls i .. j-1 go on and
   * call j stops, exactly j - i + 1 calls are made from i.
   */
  lemma {:induction false} PollCallsFirstStop(fetch: Replies, cleanupAt: Option<nat>, i: nat, j: nat)
    requires i <= j < MaxPollIterations && StopsAt(fetch, cleanupAt, j)
    requires forall k :: i <= k < j ==> !StopsAt(fetch, cleanupAt, k)
    ensures PollCalls(fetch, cleanupAt, i) == j - i + 1
    decreases j - i
  {
    if i < j {
      PollCallsFirstStop(fetch, cleanupAt, i + 1, j);
    }
  }

  /** With no stopping call from i on, the loop runs to the bound. */
  lemma {:induction false} PollCallsNoStop(fetch: Replies, cleanupAt: Option<nat>, i: nat)
    requires i <= MaxPollIterations
    requires forall k :: i <= k < MaxPollIterations ==> !StopsAt(fetch, cleanupAt, k)
    ensures PollCalls(fetch, cleanupAt, i) == MaxPollIterations - i
    decreases MaxPollIterations - i
  {
    if i < MaxPollIterations {
      PollCallsNoStop(fetch, cleanupAt, i + 1);
    }
  }

  /**
   * A run of n calls: at least one and at most 10000, none but the last
   * stopping, and the last stopping unless the bound was reached.
   */
  predicate IsRunLength(fetch: Replies, cleanupAt: Option<nat>, n: nat)
  {
    1 <= n <= MaxPollIterations &&
    (forall k :: 0 <= k < n - 1 ==> !StopsAt(fetch, cleanupAt, k)) &&
    (n < MaxPollIterations ==> StopsAt(fetch, cleanupAt, n - 1))
  }

  /** A run's length is the count `PollCalls` gives. */
  lemma RunLengthIsPollCalls(fetch: Replies, cleanupAt: Option<nat>, n: nat)
    requires IsRunLength(fetch, cleanupAt, n)
    ensures n == PollCalls(fetch, cleanupAt, 0)
  {
    if StopsAt(fetch, cleanupAt, n - 1) {
      PollCallsFirstStop(fetch, cleanupAt, 0, n - 1);
    } else {
      PollCallsNoStop(fetch, cleanupAt, 0);
    }
  }

  /** The shared `isPolling` ref of the chat view. */
  class PollingFlag {
    var current: bool

    constructor ()
      ensures !current
    {
      current := false;
    }
  }

  /**
   * One run of the pending-messages effect, on its own. With `isPolling`
   * set it does nothing; across React's runs the ref is always clear when a
   * run starts (`EveryRunStartsALoop`), so loops of successive runs can
   * overlap. With the ref clear it sets the flag and polls:
   * each non-empty reply appends its first resolved message to the thread,
   * the loop ends on an empty reply, a rejected call, the 10000th call, or
   * at the loop test after a cleanup. `cleanupAt = Some(c)` runs the effect's
   * cleanup while call c is in flight (or after the loop, if it ended
   * sooner); the reply of call c is merged all the same. A rejected call
   * ends the loop without clearing the flag, so only a cleanup clears it.
   */
  method PendingMessagesEffect(qc: QueryClient, isPolling: PollingFlag, threadId: string,
                               fetch: Replies, cleanupAt: Option<nat>)
    returns (started: bool, calls: nat)
    modifies qc, isPolling
    ensures started <==> !old(isPolling.current)
    ensures !started ==> calls == 0 && isPolling.current && qc.messages == old(qc.messages) && qc.log == old(qc.log)
    ensures started ==> calls == PollCalls(fetch, cleanupAt, 0)
    ensures started ==> qc.MessagesOf(threadId) == old(qc.MessagesOf(threadId)) + PollMerged(fetch, calls)
    ensures started ==> (isPolling.current <==> cleanupAt.None? && calls > 0 && fetch(calls - 1).Failure?)
    ensures forall t :: t != threadId ==> qc.MessagesOf(t) == old(qc.MessagesOf(t))
    ensures qc.recentThreads == old(qc.recentThreads) && qc.recentThreadStamps == old(qc.recentThreadStamps)
  {
    if isPolling.current {
      return false, 0;
    }
    started := true;
    isPolling.current := true;
    calls := GetPendingMessages(qc, isPolling, threadId, fetch, cleanupAt);
    RunLengthIsPollCalls(fetch, cleanupAt, calls);
    forall t | t != threadId
      ensures qc.MessagesOf(t) == old(qc.MessagesOf(t))
    {
      assert t in qc.messages <==> t in qc.OtherThreads(threadId);
      assert t in old(qc.messages) <==> t in old(qc.OtherThreads(threadId));
    }
  }

  /** `getPendingMessages`: the loop itself, entered with the flag set. */
  method GetPendingMessages(qc: QueryClient, isPolling: PollingFlag, threadId: string,
                            fetch: Replies, cleanupAt: Option<nat>)
    returns (calls: nat)
    requires isPolling.current
    modifies qc, isPolling
    ensures IsRunLength(fetch, cleanupAt, calls)
    ensures qc.MessagesOf(threadId) == old(qc.MessagesOf(threadId)) + PollMerged(fetch, calls)
    ensures isPolling.current <==> cleanupAt.None? && fetch(calls - 1).Failure?
    ensures qc.OtherThreads(threadId) == old(qc.OtherThreads(threadId))
    ensures qc.recentThreads == old(qc.recentThreads) && qc.recentThreadStamps == old(qc.recentThreadStamps)
  {
    var cancelled, stopped;
    calls, cancelled, stopped := PollLoop(qc, isPolling, threadId, fetch, cleanupAt);
    PollProgressEnd(fetch, cleanupAt, calls, cancelled, stopped, isPolling.current);
    if !stopped {
      // the loop ran out or saw the cancellation; a `return` inside it skips this
      isPolling.current := false;
    }
  }

  /** The `while` loop alone: it runs until the bound, the cancellation or a stopping reply. */
  method PollLoop(qc: QueryClient, isPolling: PollingFlag, threadId: string,
                  fetch: Replies, cleanupAt: Option<nat>)
    returns (i: nat, cancelled: bool, stopped: bool)
    requires isPolling.current
    modifies qc, isPolling
    ensures PollProgress(fetch, cleanupAt, i, cancelled, stopped, isPolling.current)
    ensures !(i < MaxPollIterations && !cancelled && !stopped)
    ensures qc.MessagesOf(threadId) == old(qc.MessagesOf(threadId)) + PollMerged(fetch, i)
    ensures qc.OtherThreads(threadId) == old(qc.OtherThreads(threadId))
    ensures qc.recentThreads == old(qc.recentThreads) && qc.recentThreadStamps == old(qc.recentThreadStamps)
  {
    cancelled := false;
    stopped := false;
    i := 0;
    ghost var base := qc.MessagesOf(threadId);
    while i < MaxPollIterations && !cancelled && !stopped
      invariant PollProgress(fetch, cleanupAt, i, cancelled, stopped, isPolling.current)
      invariant qc.MessagesOf(threadId) == base + PollMerged(fetch, i)
      invariant qc.OtherThreads(threadId) == old(qc.OtherThreads(threadId))
      invariant qc.recentThreads == old(qc.recentThreads) && qc.recentThreadStamps == old(qc.recentThreadStamps)
      decreases MaxPollIterations - i
    {
      ghost var flag := isPolling.current;
      stopped, cancelled := PollIteration(qc, isPolling, threadId, fetch(i), cleanupAt, i);
      PollProgressStep(fetch, cleanupAt, i, flag, stopped, cancelled, isPolling.current);
      PollMergedStep(base, fetch, i);
      i := i + 1;
    }
  }

  /**
   * The loop's bookkeeping after i iterations: a loop that left early left
   * at a stopping call i - 1 and no earlier one stopped; the flag is still
   * set unless a cleanup or an empty reply cleared it.
   */
  predicate PollProgress(fetch: Replies, cleanupAt: Option<nat>, i: nat, cancelled: bool, stopped: bool, flag: bool)
  {
    && i <= MaxPollIterations
    && (cancelled || stopped ==> i >= 1 && StopsAt(fetch, cleanupAt, i - 1))
    && (forall k :: 0 <= k < i - (if cancelled || stopped then 1 else 0) ==> !StopsAt(fetch, cleanupAt, k))
    && (flag <==> if stopped then cleanupAt.None? && fetch(i - 1).Failure? else !cancelled)
    && (!stopped && i > 0 ==> fetch(i - 1).Success?)
    && (cancelled ==> cleanupAt.Some?)
  }

  /** One iteration, described by `PollIteration`'s contract, keeps the bookkeeping. */
  lemma PollProgressStep(fetch: Replies, cleanupAt: Option<nat>, i: nat, flag: bool,
                         stop: bool, cancelled: bool, flag': bool)
    requires i < MaxPollIterations && PollProgress(fetch, cleanupAt, i, false, false, flag)
    requires cancelled <==> cleanupAt == Some(i)
    requires stop <==> fetch(i).Failure? || |fetch(i).value| == 0
    requires flag' ==
      if cancelled || (fetch(i).Success? && |fetch(i).value| == 0) || (stop && cleanupAt.Some?) then false
      else flag
    ensures PollProgress(fetch, cleanupAt, i + 1, cancelled, stop, flag')
  {
  }

  /** When the loop ends, the number of calls is a run length and the flag is as promised. */
  lemma PollProgressEnd(fetch: Replies, cleanupAt: Option<nat>, i: nat, cancelled: bool, stopped: bool, flag: bool)
    requires PollProgress(fetch, cleanupAt, i, cancelled, stopped, flag)
    requires !(i < MaxPollIterations && !cancelled && !stopped)
    ensures IsRunLength(fetch, cleanupAt, i)
    ensures (if stopped then flag else false) <==> cleanupAt.None? && fetch(i - 1).Failure?
  {
  }

  /**
   * The body of one iteration: the cleanup, if it falls during this call,
   * sets the cancellation flag and clears `isPolling`; an empty reply clears
   * it and leaves the loop; a rejection leaves the loop (the flag is then
   * cleared only by a cleanup); otherwise the reply is merged.
   */
  method PollIteration(qc: QueryClient, isPolling: PollingFlag, threadId: string,
                       response: Result<seq<PendingResult>, string>, cleanupAt: Option<nat>, i: nat)
    returns (stop: bool, cancelled: bool)
    modifies qc, isPolling
    ensures cancelled <==> cleanupAt == Some(i)
    ensures stop <==> response.Failure? || |response.value| == 0
    ensures isPolling.current ==
      if cancelled || (response.Success? && |response.value| == 0) || (stop && cleanupAt.Some?) then false
      else old(isPolling.current)
    ensures qc.MessagesOf(threadId) == old(qc.MessagesOf(threadId)) + Merged(response)
    ensures qc.OtherThreads(threadId) == old(qc.OtherThreads(threadId))
    ensures qc.recentThreads == old(qc.recentThreads) && qc.recentThreadStamps == old(qc.recentThreadStamps)
  {
    cancelled := false;
    if cleanupAt == Some(i) {
      cancelled := true;
      isPolling.current := false;
    }
    if response.Failure? {
      if cleanupAt.Some? {
        // the cleanup runs later, after the rejected loop is gone
        isPolling.current := false;
      }
      return true, cancelled;
    }
    if |response.value| == 0 {
      isPolling.current := false;
      return true, cancelled;
    }
    MergeReply(qc, threadId, response);
    stop := false;
  }

  lemma PollMergedStep(base: seq<Message>, fetch: Replies, i: nat)
    ensures base + PollMerged(fetch, i + 1) == (base + PollMerged(fetch, i)) + Merged(fetch(i))
    ensures Merged(fetch(i)) == [] ==> base + PollMerged(fetch, i + 1) == base + PollMerged(fetch, i)
  {
  }

  /** The merge step of one iteration: the first resolved message, if any, goes to the end of the thread. */
  method MergeReply(qc: QueryClient, threadId: string, response: Result<seq<PendingResult>, string>)
    modifies qc
    ensures qc.MessagesOf(threadId) == old(qc.MessagesOf(threadId)) + Merged(response)
    ensures qc.OtherThreads(threadId) == old(qc.OtherThreads(threadId))
    ensures qc.recentThreads == old(qc.recentThreads) && qc.recentThreadStamps == old(qc.recentThreadStamps)
  {
    if response.Success? {
      var resolved := FirstResolved(response.value);
      if resolved.Some? {
        qc.SetMessages(threadId, qc.MessagesOf(threadId) + [resolved.value]);
      }
    }
  }

  /** A reply with a resolved message followed by an empty one: two calls, the message merged once. */
  lemma PollMergesThenStops(m: Message, fetch: Replies)
    requires fetch(0) == Success([PendingResult("pending", None), PendingResult("done", Some(m))])
    requires fetch(1) == Success([])
    ensures PollCalls(fetch, None, 0) == 2 && PollMerged(fetch, 2) == [m]
  {
    PollCallsFirstStop(fetch, None, 0, 1);
    assert FirstResolved(fetch(0).value) == Some(m);
  }

  /** A cleanup while the first call is in flight does not stop its reply from being merged. */
  lemma PollMergesInFlightReplyAfterCleanup(m: Message, fetch: Replies)
    requires fetch(0) == Success([PendingResult("done", Some(m))])
    ensures PollCalls(fetch, Some(0), 0) == 1 && PollMerged(fetch, 1) == [m]
  {
  }

  // ------------------------------------------------------------ the effect across runs

  /**
   * The writes to the `isPolling` ref over the view's life. The effect runs
   * again whenever `messages`, `thread` or `queryClient` change (a merge
   * changes `messages`), and React runs a run's cleanup before the next run.
   * Loops are numbered by the run that started them.
   */
  datatype FlagEvent =
    | EffectRun           // the guard, then `isPolling.current = true` when it passes
    | EffectCleanup       // the cleanup: `isPolling.current = false`
    | LoopEnds(loop: nat) // loop `loop` ends normally and clears the ref, even if a newer loop runs
    | LoopFails(loop: nat) // loop `loop` ends on a rejected call and leaves the ref as it is

  /** The ref after the events, from `useRef(false)`. */
  function FlagAfter(events: seq<FlagEvent>): bool
    decreases |events|
  {
    if events == [] then false
    else
      var before := FlagAfter(events[..|events| - 1]);
      match events[|events| - 1]
      case EffectRun => true
      case EffectCleanup => false
      case LoopEnds(_) => false
      case LoopFails(_) => before
  }

  /** Whether a run is mounted and not yet cleaned up. */
  function Mounted(events: seq<FlagEvent>): bool
    decreases |events|
  {
    if events == [] then false
    else
      match events[|events| - 1]
      case EffectRun => true
      case EffectCleanup => false
      case _ => Mounted(events[..|events| - 1])
  }

  /** React's order: a run only when none is mounted, a cleanup only of a mounted run. */
  predicate ReactOrder(events: seq<FlagEvent>)
    decreases |events|
  {
    events == [] ||
    (ReactOrder(events[..|events| - 1]) &&
     (events[|events| - 1] == EffectRun ==> !Mounted(events[..|events| - 1])) &&
     (events[|events| - 1] == EffectCleanup ==> Mounted(events[..|events| - 1])))
  }

  /** The loops started so far: one per run whose guard passed, numbered from 0. */
  function LoopsStarted(events: seq<FlagEvent>): nat
    decreases |events|
  {
    if events == [] then 0
    else
      var init := events[..|events| - 1];
      LoopsStarted(init) + (if events[|events| - 1] == EffectRun && !FlagAfter(init) then 1 else 0)
  }

  /** How many times the effect has run. */
  function Runs(events: seq<FlagEvent>): nat
    decreases |events|
  {
    if events == [] then 0
    else Runs(events[..|events| - 1]) + (if events[|events| - 1] == EffectRun then 1 else 0)
  }

  /** The loops started and not yet ended. */
  function InFlight(events: seq<FlagEvent>): set<nat>
    decreases |events|
  {
    if events == [] then {}
    else
      var init := events[..|events| - 1];
      match events[|events| - 1]
      case EffectRun => if FlagAfter(init) then InFlight(init) else InFlight(init) + {LoopsStarted(init)}
      case EffectCleanup => InFlight(init)
      case LoopEnds(k) => InFlight(init) - {k}
      case LoopFails(k) => InFlight(init) - {k}
  }

  /** The ref is set only while a run is mounted. */
  lemma {:induction false} FlagOnlyWhileMounted(events: seq<FlagEvent>)
    requires ReactOrder(events)
    ensures FlagAfter(events) ==> Mounted(events)
    decreases |events|
  {
    if events != [] {
      FlagOnlyWhileMounted(events[..|events| - 1]);
    }
  }

  /**
   * The guard never stops a run: React cleans up before it runs the effect
   * again, so the ref is clear at every run and every run starts a loop of
   * its own.
   */
  lemma {:induction false} EveryRunStartsALoop(events: seq<FlagEvent>)
    requires ReactOrder(events)
    ensures LoopsStarted(events) == Runs(events)
    ensures events != [] && events[|events| - 1] == EffectRun ==> !FlagAfter(events[..|events| - 1])
    decreases |events|
  {
    if events != [] {
      var init := events[..|events| - 1];
      EveryRunStartsALoop(init);
      FlagOnlyWhileMounted(init);
    }
  }

  /**
   * A merge re-runs the effect while the first loop waits out its pause:
   * after the cleanup the second run starts a second loop beside the first.
   * When the first loop then ends, it clears the ref although the second
   * loop is still running.
   */
  lemma LoopsOverlap()
    ensures ReactOrder([EffectRun, EffectCleanup, EffectRun])
    ensures InFlight([EffectRun, EffectCleanup, EffectRun]) == {0, 1}
    ensures FlagAfter([EffectRun, EffectCleanup, EffectRun])
    ensures ReactOrder([EffectRun, EffectCleanup, EffectRun, LoopEnds(0)])
    ensures InFlight([EffectRun, EffectCleanup, EffectRun, LoopEnds(0)]) == {1}
    ensures !FlagAfter([EffectRun, EffectCleanup, EffectRun, LoopEnds(0)])
  {
    var e1, e2, e3 := [EffectRun], [EffectRun, EffectCleanup], [EffectRun, EffectCleanup, EffectRun];
    var e4 := [EffectRun, EffectCleanup, EffectRun, LoopEnds(0)];
    assert e1[..0] == [] && e2[..1] == e1 && e3[..2] == e2 && e4[..3] == e3;
    assert ReactOrder(e3) && InFlight(e3) == {0, 1};
    assert e4[3] == LoopEnds(0);
  }

  /**
   * A loop that ends on a rejected call leaves the ref set; the next run's
   * cleanup clears it, so that run starts a new loop all the same.
   */
  lemma RejectedLoopThenRerun()
    ensures FlagAfter([EffectRun, LoopFails(0)]) && InFlight([EffectRun, LoopFails(0)]) == {}
    ensures ReactOrder([EffectRun, LoopFails(0), EffectCleanup, EffectRun])
    ensures LoopsStarted([EffectRun, LoopFails(0), EffectCleanup, EffectRun]) == 2
    ensures InFlight([EffectRun, LoopFails(0), EffectCleanup, EffectRun]) == {1}
  {
    var e1, e2 := [EffectRun], [EffectRun, LoopFails(0)];
    var e3, e4 := [EffectRun, LoopFails(0), EffectCleanup], [EffectRun, LoopFails(0), EffectCleanup, EffectRun];
    assert e1[..0] == [] && e2[..1] == e1 && e3[..2] == e2 && e4[..3] == e3;
    assert e2[1] == LoopFails(0) && FlagAfter(e2) && InFlight(e2) == {};
    assert Mounted(e2) && ReactOrder(e3) && !FlagAfter(e3);
  }
}

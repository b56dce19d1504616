// `useChatState`: the processed state of a thread and the text-send handler
// with its waiting flag.
module UseChatState {
  import opened Wrappers
  import opened ChatTypes
  import opened QueryCache
  import JsString
  import SeqUtil
  import MessageProcessor
  import UseChat

  class ChatStateHook {
    const threadId: string
    const qc: QueryClient
    var isWaitingForMessage: bool
    /** Every value the waiting flag has been set to, in order. */
    var waitingTrace: seq<bool>

    constructor (threadId: string, qc: QueryClient)
      ensures this.threadId == threadId && this.qc == qc
      ensures !isWaitingForMessage && waitingTrace == []
    {
      this.threadId := threadId;
      this.qc := qc;
      isWaitingForMessage := false;
      waitingTrace := [];
    }

    /** The thread's current message list, as the cache holds it. */
    function Messages(): seq<Message>
      reads this, qc
    {
      qc.MessagesOf(threadId)
    }

    /**
     * `handleSendMessage`: whitespace-only text sends nothing and touches no
     * state. Otherwise the flag goes up, the trimmed text is sent as a text
     * fragment, and the flag comes down whether the send succeeded or not;
     * the rejection is swallowed, so the caller sees no result.
     */
    method HandleSendMessage(text: string, sent: UseChat.Clock,
                             response: Result<UseChat.SendResponse, string>, failedAt: UseChat.Clock)
      modifies this, qc
      ensures JsString.Trim(text) == [] ==>
        isWaitingForMessage == old(isWaitingForMessage) && waitingTrace == old(waitingTrace) &&
        qc.messages == old(qc.messages) && qc.log == old(qc.log) &&
        qc.recentThreadStamps == old(qc.recentThreadStamps)
      ensures JsString.Trim(text) != [] ==>
        waitingTrace == old(waitingTrace) + [true, false] && !isWaitingForMessage &&
        qc.messages == old(qc.messages)[threadId := old(Messages()) +
          [UseChat.OptimisticMessage(UseChat.TextFragment(JsString.Trim(text)), sent),
           Reply(response, failedAt)]]
      ensures JsString.Trim(text) != [] ==>
        qc.recentThreadStamps == UseChat.StampThread(old(qc.recentThreadStamps), threadId, sent.localeStamp) &&
        qc.log == old(qc.log) + UseChat.SendLog(threadId, response.Success? && response.value.message.Some?)
      ensures qc.recentThreads == old(qc.recentThreads)
    {
      var trimmed := JsString.Trim(text);
      if trimmed == [] {
        return;
      }
      ghost var start := qc.messages;
      ghost var before := qc.MessagesOf(threadId);
      isWaitingForMessage := true;
      waitingTrace := waitingTrace + [true];
      var r := UseChat.SendMessage(qc, threadId, UseChat.TextFragment(trimmed), sent, response, failedAt);
      assert (if r.Success? then r.value else UseChat.ErrorReply(failedAt)) == Reply(response, failedAt);
      assert qc.messages == start[threadId := before +
        [UseChat.OptimisticMessage(UseChat.TextFragment(trimmed), sent), Reply(response, failedAt)]];
      isWaitingForMessage := false;
      waitingTrace := waitingTrace + [false];
    }
  }

  /** What follows the optimistic entry: the server's message, or the apology when the send failed. */
  function Reply(response: Result<UseChat.SendResponse, string>, failedAt: UseChat.Clock): Message
  {
    if response.Success? && response.value.message.Some? then response.value.message.value
    else UseChat.ErrorReply(failedAt)
  }

  /** `chatState`: the processor's view of the whole, unfiltered thread. */
  function ChatStateOf(messages: seq<Message>): (s: MessageProcessor.ChatState)
    ensures forall fam :: (MessageProcessor.Groups(s, fam) ==
      MessageProcessor.ProcessFragmentGroup(MessageProcessor.GetFragments(messages), fam,
        MessageProcessor.ErrorTaskIds(MessageProcessor.GetFragments(messages))).groupedById)
  {
    forall fam { MessageProcessor.ProcessSelectsFamily(messages, fam); }
    MessageProcessor.Process(messages)
  }

  /**
   * The optimistic entry of a text send adds nothing to any group: the
   * processed state after it is the state before it.
   */
  lemma {:induction false} TextSendLeavesStateUnchanged(messages: seq<Message>, text: string, c: UseChat.Clock)
    ensures ChatStateOf(messages + [UseChat.OptimisticMessage(UseChat.TextFragment(text), c)]) == ChatStateOf(messages)
  {
    var m := UseChat.OptimisticMessage(UseChat.TextFragment(text), c);
    MessageProcessor.GetFragmentsAppend(messages, [m]);
    assert MessageProcessor.Contents([m]) == [[UseChat.TextFragment(text)]];
    assert SeqUtil.Flatten([[UseChat.TextFragment(text)]]) == [UseChat.TextFragment(text)] + SeqUtil.Flatten<Fragment>([]);
    assert !MessageProcessor.IsMedia(UseChat.TextFragment(text));
    assert MessageProcessor.GetFragments([m]) == [];
    assert MessageProcessor.GetFragments(messages + [m]) == MessageProcessor.GetFragments(messages);
  }
}

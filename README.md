# Session-42 chat client: a verified model of the chat core

This project models the core of the Session-42 desktop chat client, a React
application in which a user talks with a music-production assistant. A chat
thread is a list of messages, and each message is an ordered list of typed
fragments: text, upload requests and their progress, task starts and
completions (song rendering, quantization, mixing, stem separation, song
composition, audio analysis), reference candidates and selections, lyrics,
musical matches and errors.

The centre of the model is the fragment-correlation engine:

- `MessageProcessor` flattens a thread's non-text fragments.
  - It groups them per family: by `taskId`, by `audioUploadRequestId` for uploads, and by `referenceCandidatesId` for references.
  - It builds an index of the task ids that errors reported.
  - It lists the groups that are still pending.
- The chat page projects the thread for display. Each fragment is shown `done` when its group has more than one fragment, fake-assistant user messages are dropped, and the open upload request is found.
- `MessageFactory` splits a message into status containers and content bubbles.
- The message-list operations of the chat hooks append to the cached thread and never remove from it: the optimistic send, the reply, an error reply, thread creation and deletion.
- There are two bounded poll loops.
  - The pending-messages loop of the chat page.
  - The generic task poller, which ends on `succeeded`, `failed` or a timeout.
- Artifact detection runs over the latest message.

Around the engine are the client's smaller state machines and string functions:

- upload validation, the upload button and the sketch-upload hook;
- the task registry;
- the chat inputs;
- the onboarding dialog;
- the layout, theme and settings contexts;
- the audio-player registry with one exclusive player at a time;
- the shuffled action buttons;
- the waveform generator and its time labels;
- the progress player, truncated text, animated dots and time of day;
- the genre grid item and the generic right sidebar;
- the reference and recent-productions sidebars;
- the user hook.

Each source file is one Dafny module. Pure code is modelled as datatypes,
functions and lemmas. Code that updates state in place is modelled as a class
whose methods are proved against those functions: the React Query cache, the
task registry, the audio players, the providers and hooks. Loops stay loops,
with their invariants:

- the poll loops;
- the segmentation loop;
- the Fisher-Yates shuffle over an array;
- the generator's 300 steps;
- the bar layout;
- the sequential URL fetches;
- the grouping by genre.

The network, timers, `Math.random`, clocks, the window size and the user's
input are parameters of the model.

Shared helpers:

- `Wrappers`: `Option` and `Result`.
- `SeqUtil`: flatten, filter, map, `groupBy` (lodash's, first-appearance key order) and their lemmas.
- `JsString`: the JavaScript string methods the code uses, ASCII case only. Its UTF-16 encoding `Utf16` gives `length` and the code units (`charCodeAt`), and it has a decoder that round-trips.
- `NumberFormat`: decimal printing, `padStart`, whole minutes and seconds.

## Where the model follows the code

The design documentation and the code differ in three places. The model follows the code each time.

- The pending-messages loop appends only the first resolved message of each reply (chat-main.tsx line 72), not every resolved item.
- A cleanup sets the cancellation flag, but the loop checks it only in its `while` condition. A reply already in flight is therefore still merged after the cleanup (`PollMergesInFlightReplyAfterCleanup`).
- A rejected pending-messages call leaves `isPolling` set until the cleanup of its effect run (`GetPendingMessages`). React runs that cleanup before the next run, which therefore starts a fresh loop (`ChatMain.EveryRunStartsALoop`, `ChatMain.RejectedLoopThenRerun`). The flag never stops a run from starting a loop, so loops of successive runs can be in flight together (`ChatMain.LoopsOverlap`).

## Behaviour of the code that the proofs bring out

- The `butcherId` branch of the notification id is dead, because the only fragment with a `butcherId` also has an `audioId` (`ArtifactNotifications.ArtifactId`).
- The `onUploadStart` branch of the upload input is never taken with the real upload hook, which always reports an `audioId` (`ChatInputWithUpload.SelectFileWithHook`).
- The onboarding completion sends every role at level `Intermediate`, so the chosen experience never reaches it (`Onboarding.CompletionIgnoresExperience`).
- The system colour-scheme handler never changes a mounted theme, because the mode effect has already stored a preference (`ThemeContext.ThemeProvider.SystemChangeNeverApplies`).
- The send's `['recentThreads']` updater spreads `...old` last, so an already listed thread keeps its old `lastMessageAt` (`UseChat.StampExistingIsIdentity`).
- The play/pause toggle of the progress player and of the genre grid item is one rule (`Audio.ToggleControl`).
- `play()` with no arguments resets the volume to 1, unmutes and clears the loop flag (`Audio.PlayResetsSettings`).
- No action button is a production action, so the `isProduction` exemption of the disabled rule never applies (`ActionButtons.ActionsDataShape`).
- The upload size check allows 60 MiB although its message says 50MB (`SketchUpload.ValidationRules`).
- `fetchUserData` overwrites `isOnboarded` with the response's value even when the response has none (`UseUser.Flatten`).
- `updateUserData` swallows a failure of its refetch (`UseUser.UserHook.UpdateUserData`).
- `handleSelect` of the reference candidates does not check the disabled state; only `pointer-events` styling blocks clicks on placeholders.
- `removeMP3Extension` removes one extension only (`GenreGridItem.NotIdempotent`).

## Model

| member | source | states |
|---|---|---|
| ChatTypes.Plain | source/V2react-dev/app/types/chat.types.ts:1-9 | a fragment as the server sends it has the given payload and none of the three optional rendering fields `done`, `messageId`, `threadId` |
| ChatTypes.UploadFragmentsCarryBothIds | source/V2react-dev/app/types/chat.types.ts:27-31 | every request, start and completion of an upload has both a `taskId` and an `audioUploadRequestId` |
| ChatTypes.ReferenceFragmentsHaveNoTaskId | source/V2react-dev/app/types/chat.types.ts:79-98 | candidates and selections carry a `referenceCandidatesId` and never a `taskId` |
| ChatTypes.StemSeparationCompleteHasNoAudioId | source/V2react-dev/app/types/chat.types.ts:167-173 | a stem-separation result has a `taskId` but no `audioId` (it names the vocals and instruments stems instead) |
| MessageProcessor.SongRenderingGuard | src/utils/message-processor.ts:38-39 | `isSongRendering` (a `taskId` and the `song_rendering` prefix) accepts exactly the song-rendering start and completion kinds |
| MessageProcessor.QuantizationGuard | src/utils/message-processor.ts:42-43 | the `quantization` prefix test accepts exactly the quantization start and completion kinds |
| MessageProcessor.MixingGuard | src/utils/message-processor.ts:44-45 | the `mixing` prefix test accepts exactly the mixing start and completion kinds |
| MessageProcessor.StemSeparationGuard | src/utils/message-processor.ts:46-47 | the `stem_separation` prefix test accepts exactly the stem-separation start and completion kinds |
| MessageProcessor.SongCompositionGuard | src/utils/message-processor.ts:48-49 | the `song_composition` prefix test accepts exactly the song-composition start and completion kinds |
| MessageProcessor.AudioAnalysisGuard | src/utils/message-processor.ts:50-51 | the `audio_analysis` prefix test accepts exactly the audio-analysis start and completion kinds |
| MessageProcessor.GuardsMatchKinds | src/utils/message-processor.ts:35-52 | each of the eight guards, the structural ones included, holds exactly for its family's kinds |
| MessageProcessor.FamiliesDisjoint | src/utils/message-processor.ts:35-52 | no fragment passes two families' guards |
| MessageProcessor.UngroupedKinds | src/utils/message-processor.ts:35-52 | text, error, lyrics and musical-match fragments pass no guard |
| MessageProcessor.MediaIsNonText | src/utils/message-processor.ts:58 | the filter `type !== 'text'` keeps exactly the non-text kinds |
| MessageProcessor.GetFragments | src/utils/message-processor.ts:54-59 | no collected fragment is a text fragment |
| MessageProcessor.GetFragmentsAppend | src/utils/message-processor.ts:54-59 | the fragments of `a + b` are those of `a` followed by those of `b`, so collection follows message order, then content order |
| MessageProcessor.GetFragmentsMember | src/utils/message-processor.ts:54-59 | a fragment is collected exactly when it is non-text and occurs in some message's content |
| MessageProcessor.ErrorTaskIdsCharacterization | src/utils/message-processor.ts:90-96 | the error index is exactly the set of task ids of the error fragments |
| MessageProcessor.PendingOfMember | src/utils/message-processor.ts:72-82 | a fragment is listed pending exactly when it is the sole fragment of a group none of whose fragments carries an errored task id |
| MessageProcessor.GroupsCharacterization | src/utils/message-processor.ts:67-70 | `ProcessFragmentGroup`: a key is present exactly when some fragment of the family has that key, and its group is the family's fragments with that key in arrival order, never empty |
| MessageProcessor.GroupContents | src/utils/message-processor.ts:67-70 | a fragment is in the group of key k exactly when it is a family fragment with key k |
| MessageProcessor.PendingCharacterization | src/utils/message-processor.ts:61-85 | the pending list of a family holds exactly the sole fragments of its single-fragment groups that no error touches |
| MessageProcessor.PendingAvoidsErroredTasks | src/utils/message-processor.ts:72-80 | a pending fragment never carries a task id that some error fragment reported |
| MessageProcessor.ProcessSelectsFamily | src/utils/message-processor.ts:87-173 | each family's fields of the processed state are that family's group result, and references have no pending list |
| MessageProcessor.ProcessGroupsCharacterization | src/utils/message-processor.ts:87-173 | in the processed thread, key k of a family is present exactly when a fragment of that family with key k occurs, and then its group is every such fragment |
| MessageProcessor.FamilyIsolation | src/utils/message-processor.ts:120-132 | a quantization and a mixing fragment sharing a task id land in two separate groups, each holding only its own family's fragment |
| MessageProcessor.UploadGroupOfRequest | src/utils/message-processor.ts:61-85 | a lone upload request forms one group of one and is pending |
| MessageProcessor.UploadGroupOfRequestAndStart | src/utils/message-processor.ts:61-85 | a request followed by its start forms one group of two, which is not pending |
| MessageProcessor.UploadRequestOpensGroup | src/utils/message-processor.ts:87-173 | after an upload request arrives in a thread with no other fragments, the upload family is one pending group holding it |
| MessageProcessor.UploadStartJoinsGroup | src/utils/message-processor.ts:87-173 | once the start with the same request id follows, the group holds both in order and nothing is pending |
| ChatMain.FakeAssistantKinds | src/components/chat/chat-main.tsx:20-26 | a fragment kind counts as fake-assistant exactly when it is one of the five completions: song rendering, stem separation, quantization, mixing, song composition |
| ChatMain.CheckMatchesFamily | src/components/chat/chat-main.tsx:153-231 | each of the eight lookups of `_processMessages` applies only to fragments of its own family, and to every one of them, and reads the group under the fragment's own key |
| ChatMain.AnnotateFragment | src/components/chat/chat-main.tsx:150 | an annotated fragment keeps its body and carries the message id and the thread id |
| ChatMain.ProcessMessagesShape | src/components/chat/chat-main.tsx:131-236 | `ProcessMessages`: the projection keeps exactly the messages the filter keeps, in their order; roles, ids, timestamps and fragment bodies are kept, and every fragment gets the message id and thread id |
| ChatMain.FakeUserMessagesDropped | src/components/chat/chat-main.tsx:132-140 | no user message holding a fake-assistant fragment survives the filter |
| ChatMain.FirstGroupSizeOfFamily | src/components/chat/chat-main.tsx:153-231 | for a fragment of a family whose group exists, the first lookup that applies is its own family's, and it yields that group's size |
| ChatMain.AnnotateDone | src/components/chat/chat-main.tsx:153-231 | the cardinality rule: in the thread's processed state, a fragment of any family is shown `done` exactly when its group holds more than one fragment |
| ChatMain.AnnotateGrouped | src/components/chat/chat-main.tsx:153-231 | in any state holding the fragment's group, `done` is set to whether that group holds more than one fragment |
| ChatMain.AnnotateUngrouped | src/components/chat/chat-main.tsx:150-233 | a fragment of no family only gains the two ids; its `done` is left as it was |
| ChatMain.AnnotateUploadGroup | src/components/chat/chat-main.tsx:153-161 | an upload fragment whose request id names an upload group is shown `done` exactly when that group has more than one fragment |
| ChatMain.UploadRequestShownPending | src/components/chat/chat-main.tsx:153-161 | an upload request alone in its thread is shown not done |
| ChatMain.UploadStartShownDone | src/components/chat/chat-main.tsx:153-161 | once the start with the same request id follows, the start is shown done |
| ChatMain.UploadRequestShownDoneAfterStart | src/components/chat/chat-main.tsx:153-161 | after the start arrives the request itself is shown done too, before any completion |
| ChatMain.ActiveUploadRequestSpec | src/components/chat/chat-main.tsx:102-124 | `ActiveUploadRequest`: the active request is the last upload request in thread order with no completion of the same id, and every later request has one; there is none exactly when every request has a completion |
| ChatMain.FirstResolvedSpec | src/components/chat/chat-main.tsx:72 | the resolved message is the first entry's message that exists; there is none exactly when no entry has a message |
| ChatMain.PollCallsBounds | src/components/chat/chat-main.tsx:63-91 | from iteration i below 10000 the loop makes at least one and at most 10000 - i calls, and a cleanup during call c allows no call after c |
| ChatMain.PollCallsFirstStop | src/components/chat/chat-main.tsx:65-70 | when calls i .. j-1 go on and call j stops the loop, exactly j - i + 1 calls are made |
| ChatMain.PollCallsNoStop | src/components/chat/chat-main.tsx:65 | with no stopping call and no cleanup the loop runs to the 10000 bound |
| ChatMain.RunLengthIsPollCalls | src/components/chat/chat-main.tsx:63-91 | the loop's stopping condition determines a unique number of calls, the one `PollCalls` gives |
| ChatMain.PollingFlag.constructor | src/components/chat/chat-main.tsx:61-92 | the `isPolling` ref starts cleared |
| ChatMain.PendingMessagesEffect | src/components/chat/chat-main.tsx:58-99 | one run of the effect on its own: with the flag set it does nothing; otherwise it sets the flag and polls, the thread grows by exactly the merged replies, other threads and the thread list are untouched, and the flag stays set only when no cleanup ran and the last call was rejected |
| ChatMain.FlagOnlyWhileMounted | src/components/chat/chat-main.tsx:58-99 | over any sequence of effect runs, cleanups and loop endings in React's order, the `isPolling` ref is set only while a run is mounted |
| ChatMain.EveryRunStartsALoop | src/components/chat/chat-main.tsx:58-99 | in React's order the ref is always clear when a run starts, so every run starts a loop: as many loops as runs |
| ChatMain.LoopsOverlap | src/components/chat/chat-main.tsx:58-99 | a run, its cleanup and a second run leave both loops in flight with the ref set; the first loop ending then clears the ref while the second is still in flight |
| ChatMain.RejectedLoopThenRerun | src/components/chat/chat-main.tsx:63-98 | a rejected call leaves the ref set with no loop in flight; the cleanup and the next run then start a second loop |
| ChatMain.GetPendingMessages | src/components/chat/chat-main.tsx:63-91 | the loop makes the run-length number of calls, appends the first resolved message of each reply in order, and leaves the flag set only after a rejected call with no cleanup |
| ChatMain.PollLoop | src/components/chat/chat-main.tsx:65-88 | the `while` loop stops only at the 10000 bound, at the cancellation or at an empty or rejected reply, and the thread has grown by exactly the merged messages of the calls it made |
| ChatMain.PollIteration | src/components/chat/chat-main.tsx:65-98 | one iteration: a cleanup during this call cancels and clears the flag; an empty reply clears the flag and leaves; a rejection leaves; otherwise the first resolved message, if any, is appended |
| ChatMain.MergeReply | src/components/chat/chat-main.tsx:72-81 | the reply's first resolved message, if any, goes to the end of this thread's cached messages and nothing else in the cache changes |
| ChatMain.PollMergesThenStops | src/components/chat/chat-main.tsx:65-81 | a reply with a message followed by an empty reply gives two calls and merges that message once |
| ChatMain.PollMergesInFlightReplyAfterCleanup | src/components/chat/chat-main.tsx:65-98 | a cleanup while the first call is in flight still lets that call's reply be merged, and no second call is made |
| QueryCache.QueryClient.CancelMessageQueries | source/V2react-dev/app/hooks/chat/use-chat.ts:95 | cancelling a thread's message fetch is logged and leaves all cached data as it was |
| QueryCache.QueryClient.SetMessages | source/V2react-dev/app/hooks/chat/use-chat.ts:88-90 | writing a thread's message list replaces that thread's entry only and is logged |
| QueryCache.QueryClient.RemoveMessageQueries | source/V2react-dev/app/hooks/chat/use-chat.ts:73 | removing a thread's message query drops that thread's entry only |
| QueryCache.QueryClient.SetRecentThreadStamps | source/V2react-dev/app/hooks/chat/use-chat.ts:108-119 | writing the `['recentThreads']` record replaces it and nothing else |
| QueryCache.QueryClient.SetRecentThreads | source/V2react-dev/app/hooks/chat/use-chat.ts:52-58 | writing an artist's thread list replaces that artist's entry only |
| QueryCache.QueryClient.InvalidateRecentThreadQueries | source/V2react-dev/app/hooks/chat/use-chat.ts:144 | invalidating the thread lists (as at line 72 and line 144) is logged and changes no cached data |
| UseChat.LocalMessageId | source/V2react-dev/app/hooks/chat/use-chat.ts:98-138 | a locally made id is the clock's decimal digits and reads back as the clock |
| UseChat.OptimisticMessage | source/V2react-dev/app/hooks/chat/use-chat.ts:97-102 | the optimistic message is a user message holding exactly the sent fragment, stamped with the clock |
| UseChat.ErrorReply | source/V2react-dev/app/hooks/chat/use-chat.ts:126-141 | the error reply is an assistant message with one text fragment holding the fixed apology |
| UseChat.StampThread | source/V2react-dev/app/hooks/chat/use-chat.ts:108-119 | the stamped record lists the old threads and the sent one; every thread already listed keeps its entry, and only an unlisted thread gets the new stamp |
| UseChat.StampExistingIsIdentity | source/V2react-dev/app/hooks/chat/use-chat.ts:111-117 | because `...old` is spread last, stamping a thread that is already listed changes nothing, however often it is repeated |
| UseChat.OnMutate | source/V2react-dev/app/hooks/chat/use-chat.ts:94-122 | the fetch is cancelled first, then the optimistic message is appended to the thread, then the thread is stamped; the artist thread lists are untouched |
| UseChat.MutationFn | source/V2react-dev/app/hooks/chat/use-chat.ts:82-93 | a failed request rejects with its error, a reply without a message rejects with 'Invalid message response', and otherwise the server's message is appended and returned; a rejection leaves the cache unchanged |
| UseChat.OnError | source/V2react-dev/app/hooks/chat/use-chat.ts:123-142 | on error the apology is appended to the thread and nothing is removed |
| UseChat.OnSuccess | source/V2react-dev/app/hooks/chat/use-chat.ts:143-145 | on success only the thread lists are invalidated |
| UseChat.SendMessage | source/V2react-dev/app/hooks/chat/use-chat.ts:78-147 | a send succeeds exactly when the reply carries a message; whatever the reply, the thread grows by exactly two messages, the optimistic one and then the confirmed message or the apology; the old messages keep their place; the thread's recent-threads stamp is updated, the thread list is untouched, and the cache log gains the cancel, write and stamp events and then the success or failure events |
| UseChat.CreateThread | source/V2react-dev/app/hooks/chat/use-chat.ts:44-50 | creation succeeds exactly when the reply carries a truthy thread id, fails with 'Failed to create chat' otherwise, and keeps the server's `lastMessageAt` over the local stamp |
| UseChat.PrependThread | source/V2react-dev/app/hooks/chat/use-chat.ts:54-57 | after the prepend the created thread's id comes first |
| UseChat.PrependThreadLookup | source/V2react-dev/app/hooks/chat/use-chat.ts:54-57 | looking up the created id finds its old entry if it had one and the new data otherwise; every other id keeps its entry or its absence |
| UseChat.CreateThreadMutation | source/V2react-dev/app/hooks/chat/use-chat.ts:40-61 | on success the thread is prepended to the artist's list; on failure the cache is unchanged; messages are never touched |
| UseChat.DeleteThreadMutation | source/V2react-dev/app/hooks/chat/use-chat.ts:63-76 | on success the thread lists are invalidated and then the thread's messages are removed; on failure the cache is unchanged |
| UseChat.TextFragment | source/V2react-dev/app/hooks/chat/use-chat.ts:152 | `sendText` builds a text fragment with the given text |
| UseChat.SketchUploadStartFragment | source/V2react-dev/app/hooks/chat/use-chat.ts:154-164 | the upload start carries the request id, task id and file name it was given |
| UseChat.SketchUploadCompleteFragment | source/V2react-dev/app/hooks/chat/use-chat.ts:166-178 | the upload completion carries the request id, task id, audio id and song name it was given |
| UseChat.ReferenceSelectionFragment | source/V2react-dev/app/hooks/chat/use-chat.ts:180-190 | the selection carries the reference id, candidates id and option number it was given |
| UseChat.SongRenderingCompleteFragment | source/V2react-dev/app/hooks/chat/use-chat.ts:192-198 | the rendering completion carries the audio id, task id and butcher id it was given |
| UseChat.QuantizationCompleteFragment | source/V2react-dev/app/hooks/chat/use-chat.ts:200-205 | the quantization completion carries its audio id and task id |
| UseChat.MixingCompleteFragment | source/V2react-dev/app/hooks/chat/use-chat.ts:207-212 | the mixing completion carries its audio id and task id |
| UseChat.SongCompositionCompleteFragment | source/V2react-dev/app/hooks/chat/use-chat.ts:214-219 | the composition completion carries its audio id and task id |
| UseChat.NormalizeErrorCode | source/V2react-dev/app/hooks/chat/use-chat.ts:222-224 | a known code (NoChordsSnapped, UnsupportedTimeSignature, NoBeatsFound) is kept verbatim and every other code becomes 'Unknown' |
| UseChat.NormalizeErrorCodeIdempotent | source/V2react-dev/app/hooks/chat/use-chat.ts:222-224 | normalising twice is normalising once, and 'Unknown' is not itself a known code |
| UseChat.ErrorFragment | source/V2react-dev/app/hooks/chat/use-chat.ts:221-231 | `sendError` sends an error fragment with the task id and the normalised code |
| UseChat.UploadBuildersJoinRequest | source/V2react-dev/app/hooks/chat/use-chat.ts:154-178 | an upload start or completion built by the hook belongs to the upload family under the request id it was built with |
| UseChat.SelectionJoinsCandidates | source/V2react-dev/app/hooks/chat/use-chat.ts:180-190 | a selection built by the hook belongs to the reference family under its candidates id |
| UseChat.CompletionsJoinTheirTasks | source/V2react-dev/app/hooks/chat/use-chat.ts:192-219 | each completion built by the hook belongs to its own family under the task id it was built with |
| UseChatState.ChatStateHook.HandleSendMessage | source/V2react-dev/app/hooks/chat/use-chat-state.ts:17-29 | whitespace-only text sends nothing and touches no state; otherwise the waiting flag goes up and comes down again, the trimmed text is sent, and the thread grows by the optimistic message and the reply or apology, the thread is stamped in the recent-threads list, and the cache log gains the send's cancel, write, stamp and outcome events |
| UseChatState.ChatStateOf | source/V2react-dev/app/hooks/chat/use-chat-state.ts:14 | the chat state's groups are the processor's groups of the whole, unfiltered thread |
| UseChatState.TextSendLeavesStateUnchanged | source/V2react-dev/app/hooks/chat/use-chat-state.ts:14-23 | the optimistic entry of a text send adds nothing to any group: the processed state is unchanged |
| MessageFactory.StatusByType | src/components/chat/messages/message-factory.tsx:7-37 | a fragment gets a status container exactly when its type is one of the ten status types |
| MessageFactory.Keyed | src/components/chat/messages/message-factory.tsx:32-35 | every fragment is rendered under the key of its position, in order |
| MessageFactory.SegmentedShape | src/components/chat/messages/message-factory.tsx:32-76 | in a segmentation every status container holds one status fragment, every bubble holds only non-status fragments and is numbered 0, 1, ... in output order, and no two bubbles are adjacent |
| MessageFactory.SegmentStep | src/components/chat/messages/message-factory.tsx:37-63 | one turn of the loop keeps the loop's invariant: the containers plus the open bubble render exactly the fragments seen so far |
| MessageFactory.StatusStep | src/components/chat/messages/message-factory.tsx:37-60 | a status fragment closes the open bubble, if any, and then gets its own container |
| MessageFactory.CloseBubble | src/components/chat/messages/message-factory.tsx:39-50 | the open bubble becomes the next numbered bubble container and a new bubble starts empty |
| MessageFactory.Segment | src/components/chat/messages/message-factory.tsx:25-79 | the returned containers render exactly the message's fragments, in order and each under its positional key, and have the segmented shape |
| MessageFactory.SegmentedNonEmpty | src/components/chat/messages/message-factory.tsx:39-67 | every container renders at least one fragment: a message with fragments never renders to nothing |
| MessageFactory.LastBubbleIsRun | src/components/chat/messages/message-factory.tsx:66-76 | the final bubble holds exactly the trailing run of non-status fragments |
| MessageFactory.LastItemStatus | src/components/chat/messages/message-factory.tsx:37-76 | the last fragment rendered is a status exactly when the last container is a status container |
| MessageFactory.LastContainersAgree | src/components/chat/messages/message-factory.tsx:32-76 | two segmentations of the same fragments end in the same kind of container holding the same fragments |
| MessageFactory.SegmentationUnique | src/components/chat/messages/message-factory.tsx:32-76 | a segmentation is determined by its fragments, so every maximal run of non-status fragments is exactly one bubble |
| Artifacts.ArtifactFromLastMessage | source/V2react-dev/app/components/chat/messages/utils.tsx:35-52 | nothing for an empty list or a last message not from the assistant; otherwise any result is an artifact fragment of the last message |
| Artifacts.ArtifactIsFirstMatch | source/V2react-dev/app/components/chat/messages/utils.tsx:45-51 | for an assistant's last message there is no artifact exactly when none of its fragments is one, and otherwise it is the first one in content order |
| Artifacts.OnlyLastMessageInspected | source/V2react-dev/app/components/chat/messages/utils.tsx:39 | messages before the last one never affect the result |
| Artifacts.ArtifactKinds | source/V2react-dev/app/components/chat/messages/utils.tsx:22-30 | lyrics and musical matches open the sidebar; upload completions and text do not |
| ArtifactNotifications.ArtifactId | use-artifact-notifications.ts:52-57 | the artifact id exists exactly when the fragment has an audio id or a butcher id, and is the audio id whenever there is one |
| ArtifactNotifications.NotificationsOf | use-artifact-notifications.ts:48-69 | one notification per notifiable fragment, in content order |
| ArtifactNotifications.Notifier.NotifyArtifacts | use-artifact-notifications.ts:39-71 | the effect sends exactly the notifications of the thread's last message, appended to those sent before |
| ArtifactNotifications.NoNotificationWithoutAssistantReply | use-artifact-notifications.ts:42-45 | nothing is sent for an empty thread or a last message from the user |
| ArtifactNotifications.NotificationsMatchFragments | use-artifact-notifications.ts:6-64 | each notification's type is an artifact type, and every notifiable fragment gets its notification |
| ArtifactNotifications.MessageTexts | use-artifact-notifications.ts:17-36 | each artifact type has its fixed text, and the lyrics text names its song |
| ArtifactNotifications.NotifiableKinds | use-artifact-notifications.ts:6-14 | upload completions are notified about; musical matches and text are not |
| Polling.Poll | src/utils/polling.ts:17-50 | the loop returns what the recursive definition gives; every turn before the last got an `in_progress` reply; each sleep is one interval; there are never more callbacks than `maxAttempts` |
| Polling.PollSucceedsIff | src/utils/polling.ts:26-33 | a poll succeeds exactly when some turn within the budget, before any abort and after only `in_progress` replies, got `succeeded` |
| Polling.PollFromSucceeds | src/utils/polling.ts:26-47 | the same from any intermediate turn k that follows k `in_progress` replies |
| Polling.PollTimesOutIff | src/utils/polling.ts:26-49 | a poll fails with 'Polling timeout' exactly when the budget is not positive or every turn got `in_progress` without an abort |
| Polling.PollFromTimesOut | src/utils/polling.ts:26-49 | the same from any intermediate turn k |
| Polling.FailedReplies | src/utils/polling.ts:35-40 | a `failed` body with a non-empty error is rethrown as a HitcraftError with that text, otherwise as 'Task failed' |
| Polling.PollAbortsIff | src/utils/polling.ts:26-47 | a poll fails with `AbortError` exactly when the abort turn lies within the budget and every turn before it got `in_progress` |
| Polling.PollFromAborts | src/utils/polling.ts:26-47 | the same from any intermediate turn k |
| Polling.AbortStopsCallbacks | src/utils/polling.ts:27 | with the abort raised at turn n, no run of `in_progress` turns is longer than n, so the loop makes at most n callbacks |
| TaskProcessor.TaskRegistry.AddTask | source/V2react-dev/app/hooks/chat/use-task-processor.ts:16-21 | a fresh, unaborted controller is stored under the id, replacing any earlier one, and the id is marked processing |
| TaskProcessor.TaskRegistry.RemoveTask | source/V2react-dev/app/hooks/chat/use-task-processor.ts:23-26 | the id stops processing and its controller, if any, is aborted; the map entry stays |
| TaskProcessor.TaskRegistry.CleanupTasks | source/V2react-dev/app/hooks/chat/use-task-processor.ts:28-31 | every mapped controller is aborted and the processing set is emptied; the map is kept |
| TaskProcessor.TaskRegistry.IsProcessing | source/V2react-dev/app/hooks/chat/use-task-processor.ts:33-35 | a task is processing exactly when its id is in the processing set |
| TaskProcessor.AddedTaskIsProcessing | source/V2react-dev/app/hooks/chat/use-task-processor.ts:16-35 | a task just added is processing, under a controller that is not aborted |
| TaskProcessor.RemovedTaskStopsProcessing | source/V2react-dev/app/hooks/chat/use-task-processor.ts:23-35 | after removal the task is not processing, and its controller is aborted and still mapped |
| SketchUpload.ValidationError | source/V2react-dev/app/hooks/use-sketch-upload.ts:44-50 | a file passes validation exactly when its MIME type starts with `audio/` and its size is at most 60 MiB |
| SketchUpload.ValidationRules | source/V2react-dev/app/hooks/use-sketch-upload.ts:44-50 | a non-audio file is refused with 'Please upload an audio file' first; an audio file over 62914560 bytes is refused with the 50MB message; a 55 MB audio file is accepted |
| SketchUpload.FileType | source/V2react-dev/app/hooks/use-sketch-upload.ts:62 | a non-empty `postProcess` is the upload type, and a missing or empty one falls back to `demo` |
| SketchUpload.FailureMessage | source/V2react-dev/app/hooks/use-sketch-upload.ts:67-71 | an `AbortError` becomes 'Upload cancelled', another Error keeps its message, and anything else becomes 'Failed to upload file' |
| SketchUpload.SketchUploader.StartUpload | source/V2react-dev/app/hooks/use-sketch-upload.ts:38-81 | a file failing validation is rejected before any state changes; otherwise the previous controller is aborted, one upload is sent with the resolved type, and afterwards loading is off and no controller is held, with completion or the error recorded |
| SketchUpload.SketchUploader.Cancel | source/V2react-dev/app/hooks/use-sketch-upload.ts:83-91 | any held controller is aborted and dropped, and loading, completion and error are reset |
| SketchUpload.SketchUploader.Unmount | source/V2react-dev/app/hooks/use-sketch-upload.ts:29-36 | on unmount any held controller is aborted and dropped, and nothing else changes |
| ChatInputWithUpload.UploadInput.HandleFileSelect | source/V2react-dev/app/components/chat/chat-input-with-upload.tsx:50-83 | without a file, an open request or both callbacks nothing happens; otherwise a `taskId` result reports the start and keeps the request active, an `audioId` result reports the completion and clears it, and any failure shows its message and clears it; uploading is off afterwards |
| ChatInputWithUpload.UploadInput.ErrorTimerFires | source/V2react-dev/app/components/chat/chat-input-with-upload.tsx:40-48 | when the 5-second timer fires the shown error is cleared and nothing else changes |
| ChatInputWithUpload.UploadButtonRule | source/V2react-dev/app/components/chat/chat-input-with-upload.tsx:86 | the upload button shows exactly when a request is open, nothing is uploading and no upload is active for it |
| ChatInputWithUpload.SelectFileWithHook | source/V2react-dev/app/components/chat/chat-input-with-upload.tsx:58-73 | with the sketch-upload hook supplying the result, a successful upload always reports a completion, never a start, and leaves no upload active |
| ChatInput.Clamp | src/components/chat/chat-input.tsx:57 | the height clamp stays within the bounds and is the identity inside them |
| ChatInput.ChatInputState.HandleMessageChange | src/components/chat/chat-input.tsx:75-80 | an edit is taken exactly when its `length` (UTF-16 code units) stays within 2000; the height and the sent messages are unchanged |
| ChatInput.ChatInputState.Resize | src/components/chat/chat-input.tsx:52-61 | after a change the height is the measured height clamped to 24..150 |
| ChatInput.ChatInputState.HandleSubmit | src/components/chat/chat-input.tsx:63-73 | a message with non-whitespace content is sent untrimmed when nothing is loading, and the box is emptied and shrunk to 24; otherwise nothing changes |
| ChatInput.ChatInputState.HandleKeyDown | src/components/chat/chat-input.tsx:84-107 | only an Enter that submits under the mobile and desktop rules does anything, and then exactly what a submit does |
| ChatInput.BlankIsNotValid | src/components/chat/chat-input.tsx:30 | a message of whitespace only is never valid |
| ChatInput.ContentIsValid | src/components/chat/chat-input.tsx:30 | a message with a non-whitespace character is valid |
| ChatInput.EnterRules | src/components/chat/chat-input.tsx:85-97 | on desktop Enter submits exactly without Shift; on mobile exactly with Meta |
| ChatInput.FocusRules | src/components/chat/chat-input.tsx:32-50 | a key of one UTF-16 code unit without Ctrl, Meta or Alt focuses the text area when no input or text area has focus; focus in an input, a modifier, a named key such as Enter, or a single character above U+FFFF (two units) never does |
| ChatInput.AstralTextLimit | src/components/chat/chat-input.tsx:75-80 | for text made only of characters above U+FFFF the 2000 limit admits at most 1000 characters |
| ChatInput.ChatInputState.ClickUpload | src/components/chat/chat-input.tsx:155-164 | a click on the upload button reaches `onUploadClick` exactly when the button is enabled (`showUploadButton`) and a handler is given; nothing else changes |
| MessageInputBar.InputBar.HandleMessageChange | src/components/artist/message-input-bar.tsx:47-52 | an edit is forwarded exactly when its `length` in UTF-16 code units stays within 2000 |
| MessageInputBar.InputBar.Resize | src/components/artist/message-input-bar.tsx:36-45 | the height is the measured height clamped to 48..300 |
| MessageInputBar.InputBar.HandleSubmit | src/components/artist/message-input-bar.tsx:56-61 | the message is handed over exactly when it has content and nothing is loading |
| MessageInputBar.InputBar.HandleKeyDown | src/components/artist/message-input-bar.tsx:63-81 | the same Enter rules as the chat input; a hand-over only for an Enter that submits |
| Onboarding.IndexOf | src/components/profile/onboarding-dialog.tsx:364 | `indexOf` finds nothing exactly when the value is absent, and otherwise the first position holding it |
| Onboarding.RoleLimit | src/components/profile/onboarding-dialog.tsx:177-181 | `RoleToggle`: checking a role when three are chosen changes nothing |
| Onboarding.RemovedOrderAt | src/components/profile/onboarding-dialog.tsx:200 | in a list of distinct roles, the order found for a role is the order of the entry holding it |
| Onboarding.RenumberAfterDrop | src/components/profile/onboarding-dialog.tsx:201-209 | after the role at position k of a list numbered 1..n is dropped, the renumbering numbers the rest 1..n-1 by position again |
| Onboarding.DropKeepsDistinct | src/components/profile/onboarding-dialog.tsx:201-209 | dropping a role from distinct roles leaves distinct roles, none of them the dropped one |
| Onboarding.ToggleKeepsNumbering | src/components/profile/onboarding-dialog.tsx:175-218 | `RoleToggle`: from distinct roles numbered 1..n, any toggle the checkbox can produce keeps them distinct, numbered 1..n and at most three; unchecking takes the role out, checking below the limit puts it last |
| Onboarding.OtherTextCleared | src/components/profile/onboarding-dialog.tsx:214-257 | unchecking `Other` clears the role text, and unchecking the `Other` genre clears the genre text |
| Onboarding.InterestsBounded | src/components/profile/onboarding-dialog.tsx:240-260 | from at most three distinct interests, any answer leaves at most three, with no duplicates |
| Onboarding.ValidAnswersGiveFullProfile | src/components/profile/onboarding-dialog.tsx:347-397 | when the role, genre and interest steps are valid (their checks at lines 265-288), the completion sends every role, every genre and the interests, so it has content to send |
| Onboarding.ValidRoleStepKeepsAllRoles | src/components/profile/onboarding-dialog.tsx:122-133 | on a valid role step (the check at lines 273-276) the step's save keeps every chosen role, `Other` under its text |
| Onboarding.CompletionGenresAt | src/components/profile/onboarding-dialog.tsx:361-368 | with one `Other` genre and its text given, the completion puts the text in `Other`'s place |
| Onboarding.GenresAgree | src/components/profile/onboarding-dialog.tsx:361-368 | the genre step (lines 150-157) and the completion send the same genres, the step with the text last and the completion with it in `Other`'s place |
| Onboarding.CompletionIgnoresExperience | src/components/profile/onboarding-dialog.tsx:376-379 | every role the toggle (line 192) added reaches the completed profile at level `Intermediate`, whatever experience was chosen |
| Onboarding.OnboardingFlow.HandleInputChange | src/components/profile/onboarding-dialog.tsx:221-262 | an answer changes only the form, as the per-field rules say |
| Onboarding.OnboardingFlow.HandleOtherText | src/components/profile/onboarding-dialog.tsx:828-835 | the "Please specify" box writes the role text on the role step and the genre text otherwise |
| Onboarding.OnboardingFlow.HandleComplete | src/components/profile/onboarding-dialog.tsx:347-429 | the whole profile is sent only if it has content; then the user is marked onboarded and the success message shows; a failing call ends the sequence there; `isUpdating` is off afterwards |
| Onboarding.OnboardingFlow.HandleNext | src/components/profile/onboarding-dialog.tsx:291-330 | an invalid step does nothing; the last step runs the completion; any other step saves its answer and moves on only if the save succeeds |
| Onboarding.OnboardingFlow.HandleBack | src/components/profile/onboarding-dialog.tsx:333-344 | going back lowers the step index by one and changes nothing else |
| LeftSidebar.Listed | src/components/sidebars/left-sidebar/index.tsx:64-68 | a listed thread is the record's value with its key as the thread id |
| LeftSidebar.ListEntries | src/components/sidebars/left-sidebar/index.tsx:64-68 | every record entry is listed, in key order |
| LeftSidebar.Insert | src/components/sidebars/left-sidebar/index.tsx:69-71 | one insertion step of the stable sort keeps the list newest first and adds one thread |
| LeftSidebar.SortNewestFirst | src/components/sidebars/left-sidebar/index.tsx:69-71 | the sorted list is newest first and as long as the input |
| LeftSidebar.SortPermutes | src/components/sidebars/left-sidebar/index.tsx:69-71 | the sort is a permutation: it loses and adds no thread |
| LeftSidebar.FilteredThreadList | src/components/sidebars/left-sidebar/index.tsx:63-83 | the shown list is newest first and never longer than the record |
| LeftSidebar.ThreadIdsAreKeys | src/components/sidebars/left-sidebar/index.tsx:64-83 | every shown thread is an entry of the record, carrying its key as id |
| LeftSidebar.BlankSearchListsAll | src/components/sidebars/left-sidebar/index.tsx:73-75 | a blank search shows every thread of the record, newest first |
| LeftSidebar.ListedIff | src/components/sidebars/left-sidebar/index.tsx:73-82 | a thread is shown exactly when it is in the sorted list and the search is blank or it matches |
| LeftSidebar.FilterKeepsOrder | src/components/sidebars/left-sidebar/index.tsx:78-82 | the search result is a subsequence of the sorted list |
| LeftSidebar.UntitledTermListsAll | src/components/sidebars/left-sidebar/index.tsx:81 | a term contained in "untitled conversation" shows every thread, titled or not |
| LeftSidebar.TitleSearch | src/components/sidebars/left-sidebar/index.tsx:77-82 | any other term shows exactly the threads whose lowercased title contains it |
| LeftSidebar.Sidebar.HandleDelete | src/components/sidebars/left-sidebar/index.tsx:37-46 | a successful delete drops the thread's messages and navigates to the artist's page only when the thread was selected; a failed delete is caught and changes nothing |
| LeftSidebar.Sidebar.HandleNewChat | src/components/sidebars/left-sidebar/index.tsx:48-55 | without an artist id nothing happens; otherwise the app goes to "/" |
| LayoutContext.ForScreen | source/V2react-dev/app/contexts/layout-context.tsx:59-67 | the screen-size effect opens both sidebars on desktop and closes both on mobile, keeping the component |
| LayoutContext.OnNavigate | source/V2react-dev/app/contexts/layout-context.tsx:51-56 | on navigation both sidebars close on mobile and nothing changes on desktop |
| LayoutContext.OpenLeft | source/V2react-dev/app/contexts/layout-context.tsx:85-88 | opening the left sidebar closes the right one |
| LayoutContext.CloseLeft | source/V2react-dev/app/contexts/layout-context.tsx:90 | closing the left sidebar leaves the right one and the component alone |
| LayoutContext.OpenRight | source/V2react-dev/app/contexts/layout-context.tsx:92-95 | opening the right sidebar closes the left one |
| LayoutContext.CloseRight | source/V2react-dev/app/contexts/layout-context.tsx:97 | closing the right sidebar leaves the left one and the component alone |
| LayoutContext.SetRightSidebar | source/V2react-dev/app/contexts/layout-context.tsx:99-101 | setting the component changes neither sidebar |
| LayoutContext.SetRightSidebarAndOpen | source/V2react-dev/app/contexts/layout-context.tsx:103-106 | setting the component and opening shows it, leaving the left sidebar alone |
| LayoutContext.ClearRightSidebar | source/V2react-dev/app/contexts/layout-context.tsx:108-111 | clearing removes the component and closes the right sidebar |
| LayoutContext.OpenDefaultRightSidebar | source/V2react-dev/app/contexts/layout-context.tsx:113-118 | the default component is always stored, and the right sidebar is open afterwards exactly when it was open already or the screen is not mobile |
| LayoutContext.ToggleFlips | source/V2react-dev/app/contexts/layout-context.tsx:69-97 | a toggle flips its own sidebar; opening one closes the other, closing one leaves the other |
| LayoutContext.ToggleLeftTwice | source/V2react-dev/app/contexts/layout-context.tsx:69-90 | toggling the left sidebar twice restores it and leaves the right one closed |
| LayoutContext.OpenOperationsAreExclusive | source/V2react-dev/app/contexts/layout-context.tsx:69-95 | after an open, or a toggle from a state with at most one sidebar open, at most one sidebar is open |
| LayoutContext.DefaultSidebarOnMobile | source/V2react-dev/app/contexts/layout-context.tsx:113-118 | on mobile the default component is only stored, never shown; on desktop it is shown |
| LayoutContext.LayoutProvider.InitializeForScreen | source/V2react-dev/app/contexts/layout-context.tsx:59-67 | the provider's state becomes the screen-size transition of its old state |
| LayoutContext.LayoutProvider.LocationChanged | source/V2react-dev/app/contexts/layout-context.tsx:51-56 | the provider's state becomes the navigation transition of its old state |
| LayoutContext.LayoutProvider.OpenLeftSidebar | source/V2react-dev/app/contexts/layout-context.tsx:85-88 | the provider's state becomes `OpenLeft` of its old state: left open and right closed |
| LayoutContext.LayoutProvider.CloseLeftSidebar | source/V2react-dev/app/contexts/layout-context.tsx:90 | the provider's state becomes `CloseLeft` of its old state |
| LayoutContext.LayoutProvider.OpenRightSidebar | source/V2react-dev/app/contexts/layout-context.tsx:92-95 | the provider's state becomes `OpenRight` of its old state: right open and left closed |
| LayoutContext.LayoutProvider.CloseRightSidebar | source/V2react-dev/app/contexts/layout-context.tsx:97 | the provider's state becomes `CloseRight` of its old state |
| LayoutContext.LayoutProvider.ToggleRightSidebar | source/V2react-dev/app/contexts/layout-context.tsx:77-83 | the provider's state becomes the right toggle of its old state |
| LayoutContext.LayoutProvider.SetRightSidebarComponent | source/V2react-dev/app/contexts/layout-context.tsx:99-101 | the provider's state becomes `SetRightSidebar` of its old state |
| LayoutContext.LayoutProvider.SetRightSidebarComponentAndOpen | source/V2react-dev/app/contexts/layout-context.tsx:103-106 | the provider's state becomes `SetRightSidebarAndOpen` of its old state |
| LayoutContext.LayoutProvider.ClearRightSidebarComponent | source/V2react-dev/app/contexts/layout-context.tsx:108-111 | the provider's state becomes `ClearRightSidebar` of its old state |
| LayoutContext.LayoutProvider.ToggleLeftSidebar | source/V2react-dev/app/contexts/layout-context.tsx:69-75 | the provider's fields become the left toggle of their old values |
| LayoutContext.LayoutProvider.OpenDefaultRightSidebarComponent | source/V2react-dev/app/contexts/layout-context.tsx:113-118 | the provider's fields become the default-sidebar transition of their old values |
| ThemeContext.InitialMode | source/V2react-dev/app/contexts/theme-context.tsx:35-45 | dark without a window; a stored "light" or "dark" as stored; otherwise dark, whatever the system prefers |
| ThemeContext.Flip | source/V2react-dev/app/contexts/theme-context.tsx:117 | the toggle always changes the mode |
| ThemeContext.FlipTwice | source/V2react-dev/app/contexts/theme-context.tsx:117 | toggling twice restores the mode |
| ThemeContext.WithModeClass | source/V2react-dev/app/contexts/theme-context.tsx:92-93 | after the class swap the root has the mode's class, not the other mode's, and every other class is as before |
| ThemeContext.StoredModeRoundTrip | source/V2react-dev/app/contexts/theme-context.tsx:39-52 | a persisted mode is read back as the mode that wrote it |
| ThemeContext.SystemPreferenceIgnoredAtStart | source/V2react-dev/app/contexts/theme-context.tsx:43-44 | the system preference never decides the start-up mode |
| ThemeContext.ThemeProvider.constructor | source/V2react-dev/app/contexts/theme-context.tsx:35-99 | on mount the initial mode is chosen, persisted and set as the root's class |
| ThemeContext.ThemeProvider.ApplyMode | source/V2react-dev/app/contexts/theme-context.tsx:47-99 | the mode effect keeps the mode, stores its name and gives the root exactly the mode's class in place of the other one |
| ThemeContext.ThemeProvider.ToggleTheme | source/V2react-dev/app/contexts/theme-context.tsx:116-118 | a toggle flips the mode, and the mode effect (lines 47-99) persists it and swaps the class |
| ThemeContext.ThemeProvider.SystemThemeChanged | source/V2react-dev/app/contexts/theme-context.tsx:102-114 | a system change is followed only when nothing is stored |
| ThemeContext.ThemeProvider.SystemChangeNeverApplies | source/V2react-dev/app/contexts/theme-context.tsx:47-109 | since the mode effect persists the mode at mount, a mounted provider always has a stored preference and the system change never applies |
| SettingsContext.Merge | source/V2react-dev/app/contexts/settings-context.tsx:58 | every key the update carries replaces the previous value, and every other key is kept |
| SettingsContext.InitialSettings | source/V2react-dev/app/contexts/settings-context.tsx:46-51 | the defaults without a window or a stored value; otherwise the stored keys over the defaults |
| SettingsContext.MergeNoChange | source/V2react-dev/app/contexts/settings-context.tsx:58 | an empty update changes nothing |
| SettingsContext.MergeIdempotent | source/V2react-dev/app/contexts/settings-context.tsx:58 | applying the same update twice is applying it once |
| SettingsContext.MergeThen | source/V2react-dev/app/contexts/settings-context.tsx:58 | two updates in a row are one update with the later keys winning |
| SettingsContext.PersistRoundTrip | source/V2react-dev/app/contexts/settings-context.tsx:50-54 | persisted settings are read back exactly at the next start-up |
| SettingsContext.EverySettingIsSuperUserOnly | source/V2react-dev/app/contexts/settings-context.tsx:26-39 | there are two setting items with distinct ids, both for super users only |
| SettingsContext.SettingsProvider.constructor | source/V2react-dev/app/contexts/settings-context.tsx:46-55 | on mount the initial settings are chosen and persisted |
| SettingsContext.SettingsProvider.UpdateSettings | source/V2react-dev/app/contexts/settings-context.tsx:53-59 | an update merges into the settings, which are then persisted |
| Audio.EffectiveVolume | source/V2react-dev/app/hooks/audio-player.ts:75-79 | the sound gets volume 0 when muted and the stored volume otherwise |
| Audio.Merged | source/V2react-dev/app/hooks/audio-player.ts:95-102 | `play`'s merged state has every key; each given key is taken as given, and each absent key gets its default: not playing, seek 0, volume 1, no loop, not muted |
| Audio.UpdateVolume | source/V2react-dev/app/hooks/audio-player.ts:75-79 | after `updateVolume` the sound's volume agrees with the player's volume and mute flag, and the stored settings are unchanged |
| Audio.ApplyLoop | source/V2react-dev/app/hooks/audio-player.ts:52-55 | the loop key sets the player's flag and the sound's to the same value |
| Audio.ApplySeek | source/V2react-dev/app/hooks/audio-player.ts:67-69 | a seek within the known duration is forwarded to the sound; any other seek, or none, leaves the player as it was; no stored setting and neither the sound's volume nor its loop changes |
| Audio.UpdateState | source/V2react-dev/app/hooks/audio-player.ts:49-70 | without a sound nothing changes; with one, a full state leaves the player holding its loop, volume and mute values with the sound in sync, and a player in sync stays in sync |
| Audio.UpdateStateKeys | source/V2react-dev/app/hooks/audio-player.ts:49-66 | with a sound, each of loop, volume and muted takes the state's value when given and keeps the player's otherwise |
| Audio.UpdateStateSeek | source/V2react-dev/app/hooks/audio-player.ts:67-69 | with a sound, the playhead moves to the given seek exactly when there is one within the duration, and stays otherwise |
| Audio.Started | source/V2react-dev/app/hooks/audio-player.ts:146-150 | after starting, the player is marked playing and its sound is playing |
| Audio.LoadedSettings | source/V2react-dev/app/hooks/audio-player.ts:120-125 | the load callback records the duration, marks the sound loaded and applies the merged state, leaving the sound in sync |
| Audio.Paused | source/V2react-dev/app/hooks/audio-player.ts:172-177 | with a sound, pausing stops it and marks the player not playing; without one nothing changes |
| Audio.Stopped | source/V2react-dev/app/hooks/audio-player.ts:179-184 | stopping is pausing that also rewinds the sound to 0 |
| Audio.WithVolumeAndMute | source/V2react-dev/app/hooks/audio-player.ts:186-194 | the volume and mute setters store their value whether or not a sound exists, keep the loop, and leave the sound's volume in sync |
| Audio.WithLoop | source/V2react-dev/app/hooks/audio-player.ts:196-201 | the loop setter stores the flag whether or not a sound exists |
| Audio.SoughtTo | source/V2react-dev/app/hooks/audio-player.ts:203-207 | an allowed seek moves the sound's playhead to the position; any other seek changes nothing |
| Audio.SeekGuard | source/V2react-dev/app/hooks/audio-player.ts:203-207 | a seek before 0 or past a known duration is ignored; within it, it is forwarded |
| Audio.Report | source/V2react-dev/app/hooks/audio-player.ts:152-170 | the reported seek is 0 without a sound and the playhead otherwise; every other field is the player's own |
| Audio.PolicyAppliedConsistent | source/V2react-dev/app/hooks/audio-player.ts:84-92 | the exclusive policy keeps each player consistent and leaves every other player not playing |
| Audio.UpdateStateKeepsConsistent | source/V2react-dev/app/hooks/audio-player.ts:49-70 | `updateState` keeps a player consistent |
| Audio.PlaybackKeepsConsistent | source/V2react-dev/app/hooks/audio-player.ts:94-150 | playing, creating the sound and loading it keep a player consistent |
| Audio.ControlsKeepConsistent | source/V2react-dev/app/hooks/audio-player.ts:172-207 | pause, stop, the setters and seeking keep a player consistent |
| Audio.PlayResetsSettings | source/V2react-dev/app/hooks/audio-player.ts:94-108 | `play()` with no arguments resets volume to 1, unmutes, clears the loop flag and plays |
| Audio.CreateSound | source/V2react-dev/app/hooks/audio-player.ts:111-120 | `play` without a sound creates one that is not playing and not loaded, with volume 0 when muted, the requested volume when non-zero (1 by default), looping when asked or already set, and keeps the merged state for its load callback |
| Audio.AudioPlayer.Stop | source/V2react-dev/app/hooks/audio-player.ts:179-184 | the player's fields become the stopped fields |
| Audio.AudioPlayer.SetVolume | source/V2react-dev/app/hooks/audio-player.ts:186-189 | the player's fields become the volume setter applied with the old mute flag |
| Audio.AudioPlayer.SetMute | source/V2react-dev/app/hooks/audio-player.ts:191-194 | the player's fields become the mute setter applied with the old volume |
| Audio.AudioPlayer.SetLoop | source/V2react-dev/app/hooks/audio-player.ts:196-201 | the player's fields become the loop setter applied to their old values |
| Audio.AudioPlayer.Pause | source/V2react-dev/app/hooks/audio-player.ts:172-177 | the player's fields become the paused fields |
| Audio.AudioPlayer.SeekTo | source/V2react-dev/app/hooks/audio-player.ts:203-207 | the player's fields become the sought fields |
| Audio.AudioPlayer.GetState | source/V2react-dev/app/hooks/audio-player.ts:152-170 | the report is the player's fields with the playhead as seek, and seek 0 without a sound |
| Audio.Registry.GetPlayer | source/V2react-dev/app/hooks/audio-player.ts:32-39 | a registered URL returns its player and changes nothing; a new URL gets a fresh player registered in both collections |
| Audio.Registry.EnforceExclusivePolicy | source/V2react-dev/app/hooks/audio-player.ts:84-92 | every other exclusive player that was playing is paused, every other one is untouched, and the calling player is unchanged |
| Audio.Registry.StartPlayback | source/V2react-dev/app/hooks/audio-player.ts:146-150 | the others that were playing are paused and the rest untouched, this player plays, at most one exclusive player is playing, and the registry stays valid |
| Audio.Registry.Play | source/V2react-dev/app/hooks/audio-player.ts:94-144 | with a sound the merged state is applied and playback starts, leaving at most one player playing; without one only the sound is created, the player is not playing, no other player changes and whether at most one plays is as before; the registry stays valid |
| Audio.Registry.OnLoad | source/V2react-dev/app/hooks/audio-player.ts:120-128 | the load callback records the duration, applies the merged state and starts, leaving at most one player playing and the registry valid |
| ActionButtons.ActionsDataShape | src/components/artist/action-buttons/action-buttons.tsx:40-272 | six actions with distinct titles, none a production action, every option labelled with its action's title |
| ActionButtons.SwapPartner | src/components/artist/action-buttons/action-buttons.tsx:278 | for a draw in [0, 1) the partner index lies in [0, i] |
| ActionButtons.SwapSpec | src/components/artist/action-buttons/action-buttons.tsx:279 | the swap exchanges positions i and j and keeps every other position |
| ActionButtons.ShuffledPermutes | src/components/artist/action-buttons/action-buttons.tsx:275-282 | the shuffle is a permutation: every element kept with its multiplicity |
| ActionButtons.ShuffleFrom | src/components/artist/action-buttons/action-buttons.tsx:277-280 | the swaps from index i down keep the length; `ShuffledPermutes` gives the permutation |
| ActionButtons.Shuffled | src/components/artist/action-buttons/action-buttons.tsx:275-282 | the Fisher-Yates shuffle keeps the length; `ShuffledPermutes` gives the permutation |
| ActionButtons.ShuffleArray | src/components/artist/action-buttons/action-buttons.tsx:275-282 | `shuffleArray` returns a fresh array holding the Fisher-Yates shuffle of the input and leaves the input alone |
| ActionButtons.SwapDownwards | src/components/artist/action-buttons/action-buttons.tsx:277-280 | the in-place loop from the last index down to 1 leaves the array as the shuffle of its old contents |
| ActionButtons.SwapStep | src/components/artist/action-buttons/action-buttons.tsx:278-279 | one loop turn advances the shuffle by exactly one swap with the drawn partner |
| ActionButtons.SwapElements | src/components/artist/action-buttons/action-buttons.tsx:279 | the destructuring swap on the array is the swap on its contents |
| ActionButtons.Toggle | src/components/artist/action-buttons/action-buttons.tsx:290-292 | clicking the selected action (by title) deselects it; any other click selects that action |
| ActionButtons.DisabledIff | src/components/artist/action-buttons/action-buttons.tsx:311-315 | `Disabled`: a button is disabled exactly when another action is selected and its own action is not a production action |
| ActionButtons.ToggleTwice | src/components/artist/action-buttons/action-buttons.tsx:290-292 | toggling the same action twice from no selection ends with no selection |
| ActionButtons.ActionButtonsState.ToggleSelectedAction | src/components/artist/action-buttons/action-buttons.tsx:290-292 | the selection becomes the toggle of the old selection |
| ActionButtons.ActionButtonsState.ClickOutside | src/components/artist/action-buttons/action-buttons.tsx:288 | a click outside clears the selection |
| ActionButtons.ActionButtonsState.SelectSuggestion | src/components/artist/action-buttons/action-buttons.tsx:324-327 | choosing a suggestion deselects the action and forwards the option's message and labels once |
| Waveform.Next | src/components/ui/waveform-audio-player.tsx:38 | one generator step stays below the modulus 233280 |
| Waveform.States | src/components/ui/waveform-audio-player.tsx:35-41 | n calls of the generator give n states, each below the modulus |
| Waveform.WaveformStates | src/components/ui/waveform-audio-player.tsx:28-47 | the 300-point loop keeps exactly the 300 generator states after the URL's `Seed`: the sum of its UTF-16 code units (`split('')` yields code units), or 12345 for an empty URL; each state is below the modulus |
| Waveform.CodeSumAppend | src/components/ui/waveform-audio-player.tsx:31 | the code sum of a concatenation is the sum of the code sums |
| Waveform.UnitSumAppend | src/components/ui/waveform-audio-player.tsx:31 | the `reduce` over code units is additive over concatenation |
| Waveform.CodeSumCons | src/components/ui/waveform-audio-player.tsx:31 | a leading character adds the sum of its own code units |
| Waveform.CharSumCases | src/components/ui/waveform-audio-player.tsx:31 | a character below U+10000 adds its code point; any other adds its two surrogate halves, which never sum to the code point |
| Waveform.SurrogateHalvesSummed | src/components/ui/waveform-audio-player.tsx:31 | "\U{1F600}" sums to 55357 + 56832, its two halves, not to its code point |
| Waveform.CodeSumRemove | src/components/ui/waveform-audio-player.tsx:31 | taking one character out of a string takes its code units out of the sum |
| Waveform.CodeSumPermutation | src/components/ui/waveform-audio-player.tsx:31 | the code sum depends only on which characters occur how often |
| Waveform.SameCharactersSameWaveform | src/components/ui/waveform-audio-player.tsx:30-46 | two non-empty URLs made of the same characters in another order draw the same waveform |
| Waveform.DataIndexInRange | src/components/ui/waveform-audio-player.tsx:117-120 | every bar reads an existing waveform point |
| Waveform.LayoutBars | src/components/ui/waveform-audio-player.tsx:114-119 | `floor(width / 1.5)` bars are laid out, bar i at x = 1.5 i showing point `floor(i / total * 300)`, below 300 |
| Waveform.TwoDigitsReadBack | src/components/ui/waveform-audio-player.tsx:318 | a number below 100 pads to two digits that read back as the number |
| Waveform.FormatTimeShape | src/components/ui/waveform-audio-player.tsx:314-319 | for a time from 0 up to 100 minutes the label is MM:SS, whose fields read back as the whole minutes and the seconds below 60 |
| ProgressPlayer.Played | src/components/ui/progress-player.tsx:21 | the played fraction is 0 without a known duration; otherwise it times the duration gives the seek, and lies in [0, 1] for a seek within the track |
| ProgressPlayer.FormatTimeShape | src/components/ui/progress-player.tsx:34-38 | for any time from 0 the label is unpadded minutes, a colon and two seconds digits, and minutes times 60 plus seconds is the whole number of seconds |
| ProgressPlayer.SecondsReadBack | src/components/ui/progress-player.tsx:37 | seconds below 60 pad to two digits that read back as the seconds |
| ProgressPlayer.LabelsAtStart | src/components/ui/progress-player.tsx:121-133 | without a known duration both labels read 0:00; at the start of a known track the elapsed label does |
| ProgressPlayer.ElapsedLabelIsSeek | src/components/ui/progress-player.tsx:60-123 | in exact arithmetic the elapsed label formats the seek position itself (the component's doubles can round below it) |
| ProgressPlayer.UnmountControls | src/components/ui/progress-player.tsx:28-32 | unmounting pauses the audio |
| TruncatedText.Prefix | src/components/ui/truncated-text.tsx:23 | `substring(0, end)` on code units is the prefix of the clamped length |
| TruncatedText.Measure | src/components/ui/truncated-text.tsx:16-21 | while mounted the effect records whether the text has more UTF-16 code units than the limit; otherwise nothing changes |
| TruncatedText.MouseEnter | src/components/ui/truncated-text.tsx:28 | entering opens the tooltip only over overflowing text |
| TruncatedText.MouseLeave | src/components/ui/truncated-text.tsx:29 | leaving always closes the tooltip |
| TruncatedText.DisplayedAfterMeasure | src/components/ui/truncated-text.tsx:19-23 | once measured, text over the limit shows as its first `maxLength` UTF-16 code units and "...", `maxLength + 3` units in all; text within it shows unchanged |
| TruncatedText.DisplayedBmp | src/components/ui/truncated-text.tsx:19-23 | for text with no character above U+FFFF, overflowing means more characters than the limit, and the display is the first `maxLength` characters and "..." |
| TruncatedText.CutSplitsPair | src/components/ui/truncated-text.tsx:19-23 | when a character above U+FFFF straddles the limit, the cut keeps only its high surrogate, so the display is not well-formed UTF-16 |
| TruncatedText.DefaultLimit | src/components/ui/truncated-text.tsx:9-23 | with the default limit, a text of 21 code units shows as its first 20 units and "..." |
| TruncatedText.TooltipOnHover | src/components/ui/truncated-text.tsx:28-35 | hovering shows the tooltip exactly when the text overflows; leaving always hides it |
| TruncatedText.TooltipOnlyOverOverflow | src/components/ui/truncated-text.tsx:35 | a tooltip shows only for text the last measurement found too long |
| AnimatedDots.NextCount | src/components/ui/animated-dots-message.tsx:14 | 3 or more wraps to 0, anything less counts up |
| AnimatedDots.VisibleDots | src/components/ui/animated-dots-message.tsx:24-34 | dot k is opaque exactly when the count is at least k + 1 |
| AnimatedDots.TicksStayInRange | src/components/ui/animated-dots-message.tsx:13-15 | the count never leaves 0..3 once inside it |
| AnimatedDots.TicksPeriodic | src/components/ui/animated-dots-message.tsx:13-15 | every four firings bring the count back where it was |
| AnimatedDots.VisibleDotsCount | src/components/ui/animated-dots-message.tsx:24-34 | as many dots show as the count says |
| AnimatedDots.DotsMessage.Tick | src/components/ui/animated-dots-message.tsx:13-15 | one firing of the interval steps the count by the wrap-around rule and keeps it within 0..3 |
| AnimatedDots.DotsMessage.RunInterval | src/components/ui/animated-dots-message.tsx:12-17 | k firings of the interval step the count k times |
| TimeOfDay.GetTimeOfDay | src/utils/time.ts:1-6 | morning exactly before 12, afternoon exactly from 12 to before 18, evening exactly from 18 |
| TimeOfDay.TimeOfDayNames | src/utils/time.ts:3-5 | the name is one of the three, and a later hour never gives an earlier part of the day |
| GenreGridItem.RemoveMp3Extension | source/V2react-dev/app/components/genre/genre-grid-item.tsx:35 | a name ending in `.mp3` in any case loses exactly those four characters; any other name is unchanged |
| GenreGridItem.CaseInsensitive | source/V2react-dev/app/components/genre/genre-grid-item.tsx:35 | `.MP3`, `.Mp3` and `.mp3` are stripped alike, `.wav` and a bare "mp3" are kept |
| GenreGridItem.NotIdempotent | source/V2react-dev/app/components/genre/genre-grid-item.tsx:35 | only one extension is removed, so removing twice differs from removing once |
| Audio.ToggleControl | source/V2react-dev/app/components/genre/genre-grid-item.tsx:18-27 | the genre item's click, like the progress player's button (progress-player.tsx lines 49-56), pauses exactly while playing and plays otherwise |
| GenreGridItem.DisabledEffect | source/V2react-dev/app/components/genre/genre-grid-item.tsx:29-33 | becoming disabled pauses the audio; becoming enabled calls nothing |
| GenericRightSidebar.ThemedIconKept | source/V2react-dev/app/components/sidebars/generic-right-sidebar.tsx:37-38 | an icon path containing "light" or "dark" is used as it is |
| GenericRightSidebar.PlainIconGetsSuffix | source/V2react-dev/app/components/sidebars/generic-right-sidebar.tsx:36-41 | in any other path the first ".svg" becomes the mode's suffix, and choosing again keeps the result |
| GenericRightSidebar.SuffixNamesMode | source/V2react-dev/app/components/sidebars/generic-right-sidebar.tsx:40-41 | a path carrying a mode suffix names its mode |
| GenericRightSidebar.TitleRoundTrip | source/V2react-dev/app/components/sidebars/generic-right-sidebar.tsx:66-68 | the two title spans joined by one space give the title back; a one-word title has an empty second span |
| GenericRightSidebar.CloseReturnsToDefault | source/V2react-dev/app/components/sidebars/generic-right-sidebar.tsx:25-31 | closing shows the recent-productions sidebar on desktop and only hides the right sidebar on mobile |
| UseReferences.GroupByGenre | src/hooks/use-references.ts:35-41 | the `reduce` loop builds the genre grouping of the references |
| UseReferences.GroupedOnceByGenre | src/hooks/use-references.ts:35-41 | the genres are exactly those that occur, and every reference is filed under its own genre as often as it occurs, and under no other |
| UseReferences.GroupKeepsOrder | src/hooks/use-references.ts:35-41 | within a genre the references keep the fetched order |
| UseReferences.EffectOutcomes | src/hooks/use-references.ts:10-32 | `OnArtistId` and `Fetched`: loading always ends; an empty artist id gives 'Artist ID is required'; a success stores the references and clears the error; a failure gives 'Failed to load references' |
| UseReferences.ReferencesHook.FetchReferences | src/hooks/use-references.ts:10-22 | the hook's fields become the outcome of the fetch |
| UseReferences.ReferencesHook.ArtistIdChanged | src/hooks/use-references.ts:24-32 | the hook's fields become the outcome of the effect for the new artist id |
| ReferenceCandidates.DisplayReferences | src/components/chat/fragments/reference-candidates.tsx:17-52 | the two placeholders show while loading or when nothing was loaded, the loaded references otherwise; the list is never empty |
| ReferenceCandidates.HandleSelect | src/components/chat/fragments/reference-candidates.tsx:46-49 | `onSelect` is called exactly when the fragment is not done and a handler exists, with the reference and option number given |
| ReferenceCandidates.ItemsAreNumbered | src/components/chat/fragments/reference-candidates.tsx:65-84 | each item keeps its reference's id and genre under the name "Option n", n its one-based position, and producing from it forwards that reference and n unless done |
| ReferenceCandidates.EnabledItemsAreLoaded | src/components/chat/fragments/reference-candidates.tsx:52-83 | an enabled item is a loaded reference, never a placeholder |
| ReferenceCandidates.PlaceholdersAreDisabled | src/components/chat/fragments/reference-candidates.tsx:52-83 | while placeholders show, every item is disabled and there are two of them |
| RecentProductions.FetchAudioUrls | source/V2react-dev/app/components/sidebars/recent-productions-sidebar/index.tsx:23-38 | the sequential loop builds the URL map the specification function describes |
| RecentProductions.UrlsForSpec | source/V2react-dev/app/components/sidebars/recent-productions-sidebar/index.tsx:26-35 | `UrlsFor`: the map holds a URL for exactly the productions whose request returned a non-empty one, whatever the other requests did, and it is the URL returned |
| RecentProductions.OrDefault | source/V2react-dev/app/components/sidebars/recent-productions-sidebar/index.tsx:110-112 | `x \|\| fallback` is x when present and non-empty, the fallback otherwise |
| RecentProductions.WithAudio | source/V2react-dev/app/components/sidebars/recent-productions-sidebar/index.tsx:108-113 | a card carries its production, 'Unknown Genre' and no image without a reference, and the fetched URL or "" |
| RecentProductions.FilterSpec | source/V2react-dev/app/components/sidebars/recent-productions-sidebar/index.tsx:17-19 | `FilteredProductions`: an empty search shows everything; any search keeps the order and exactly the productions whose lowercased name contains it |
| RecentProductions.Sidebar.ProductionsChanged | source/V2react-dev/app/components/sidebars/recent-productions-sidebar/index.tsx:22-43 | with productions the URL map is refetched and stored; without any nothing happens |
| RecentProductions.Sidebar.Cards | source/V2react-dev/app/components/sidebars/recent-productions-sidebar/index.tsx:106-113 | every card is a matching production with its audio details, and there are no more cards than productions |
| UseUser.Spread | source/V2react-dev/app/hooks/use-user.ts:42-43 | a key the response carries replaces the previous value |
| UseUser.ListOrEmpty | source/V2react-dev/app/hooks/use-user.ts:44-46 | an attribute list the response carries is taken, possibly empty; a missing one becomes the empty list |
| UseUser.Flatten | source/V2react-dev/app/hooks/use-user.ts:41-48 | after a fetch the record has all three lists, `isOnboarded` taken from the response even when absent, and the response's other keys over the previous ones |
| UseUser.FlattenKeepsLists | source/V2react-dev/app/hooks/use-user.ts:44-46 | lists the response carries reach the record unchanged |
| UseUser.FlattenWithoutAttributes | source/V2react-dev/app/hooks/use-user.ts:44-46 | a response without attributes gives three empty lists |
| UseUser.UpdateBodySendsFetchedLists | source/V2react-dev/app/hooks/use-user.ts:66-72 | `UpdateBody`: saving a record fetched with all three lists sends exactly those lists back |
| UseUser.UserHook.FetchUserData | source/V2react-dev/app/hooks/use-user.ts:27-54 | without a user id only loading ends; otherwise one GET, whose success flattens into the record and whose failure leaves it; loading ends either way |
| UseUser.UserHook.UpdateUserData | source/V2react-dev/app/hooks/use-user.ts:60-78 | without a user id nothing happens; an update failure is rethrown with the record unchanged; after a success the refetch runs and its failure is swallowed |
| UseUser.UserHook.SetOnboardingComplete | source/V2react-dev/app/hooks/use-user.ts:80-87 | the flag turns true only after the call succeeds; a failure leaves the record |

## Left out

- Rendering: all JSX, animation, CSS and theme configuration are left out. This includes the fragment-type-to-component dispatch, the status labels, the artifact and sidebar components and the message list's scrolling and height measurement. They decide how things look, not what state the client keeps.
- Real time: the 2-second pause of the pending-messages loop, the poller's sleeps, the 5-second error clear and the dots interval are abstract steps. The poller records the sleeps it asks for; the other timers are modelled as the step that runs when they fire.
- The network, authentication and the API client: every call is given as its outcome (a `Result`), and the calls made are logged. The React Query refetch after `invalidateQueries` is left out; the model records only the invalidation.
- `Math.random`, the system clock, the hour of day, the window size, the page's focus and the text area's measured height are parameters.
- Analytics: the Mixpanel events sent by the action buttons are left out. Only the labels a chosen suggestion forwards are kept.
- The desktop notification service's delivery and its permission prompt are left out. The notifications are a list of sent records.
- The page reload three seconds after a completed onboarding, and the Mixpanel profile sent just before it, are left out. The model stops once the success message is shown.
- The sound library behind the audio player: the sound object is opaque, and its asynchronous play, pause, stop and end callbacks are left out.
- Audio: a player's `isPlaying` is what the player last asked the sound for, not what the sound reports. Only the load callback, which sets the duration, is modelled.
- The separate audio hook's animation-frame throttling and its loading poll are timing plumbing and are left out.
- Canvas drawing, the waveform's floating-point amplitudes (`random() * 0.8 + 0.2`), the progress repaint and the waveform progress player are left out. The generator's integer states are modelled instead.
- The progress bar's click-to-seek is left out, because it depends on the bar's pixel geometry. The download button of the recent-productions sidebar opens a URL in the browser and is left out too.
- NumberFormat: a JavaScript number is NaN or finite. `Infinity` and `-Infinity` are not modelled, so the time labels for an infinite duration are not covered.
- Played: the fraction is an exact real, where the component divides IEEE doubles. Rounding in `seek / duration` is not modelled.
- TimeLabels: the elapsed label formats `played * duration` in exact arithmetic. In doubles, (1 / 49) * 49 lies just below 1, so a seek of 1 second in a 49-second track reads "0:00" there and "0:01" in the model.
- ElapsedLabelIsSeek: holds in exact arithmetic only, for the reason given under TimeLabels.
- DataIndex: `floor(i / total * 300)` is computed on exact reals. In doubles, bar 11 of 15 gives 11 / 15 * 300 just below 220, so the component reads point 219 where the model reads 220.
- LayoutBars: the bar positions `1.5 * i` and the bar count `floor(width / 1.5)` are exact reals. Double rounding of the positions and the data indices (see DataIndex) is not modelled.
- PendingMessagesEffect: the flag trace (`EveryRunStartsALoop`, `LoopsOverlap`) shows that loops of successive runs overlap. The interleaving of their merges into the cache, two loops appending to the same thread in turn, is not modelled; each loop is proved on its own, and its 10000-call bound holds per run, not per thread.
- Asynchronous interleavings in general are left out: each awaited call is modelled as settling before the next event. This covers a recent-productions URL fetch that resolves after the productions changed again, and a send mutation whose awaits resume after a newer render or another send.
- JsString: `toLowerCase` is the ASCII mapping. Case folding beyond ASCII is not modelled, so a search matches non-ASCII letters only in the same case. `length`, `substring` and `charCodeAt` are modelled on UTF-16 code units; the other string methods work on whole characters. The code passes them only ASCII separators and patterns, and for those, matching on characters and on code units finds the same pieces.
- MessageProcessor: the groups are listed in first-appearance order of their keys. JavaScript's `Object.entries` would list integer-like keys first, ascending; the model does not reproduce that reordering.
- ChatTypes: the fragment union is closed. Fragment tags that the type declarations do not list, which a server could still send at run time, are not modelled.
- LeftSidebar: thread times are given as numbers. Parsing the `lastMessageAt` date strings and the local date formatting are left out.
- SettingsContext: the stored settings are taken already parsed, as a partial record of the two known settings. Malformed JSON in storage and unknown extra keys are not modelled.
- UseUser: only the user record's known fields are modelled. Extra keys that the spread of `userAttributes` would copy into the record are left out.
- UseReferences: genres are plain keys. A genre named after an `Object.prototype` member (such as `constructor`) would behave differently in the JavaScript accumulator; the model does not capture that.
- The context hooks' error when they are used outside their provider is left out. The model always has a provider.
- The pages, routing, login, the Electron main and preload scripts and the build configuration are not part of this model.

# Live transcript core of a LiveKit voice front end, in Dafny

This project models the two pieces of the voice front end that carry state or rules.

**The transcription hook** (`useTranscription`). The SDK delivers each transcription event as a batch of segments `{text, final}`. The hook reduces a batch to two values:

- an effective text: the segment texts joined with single spaces;
- a finality flag: true when any segment is final.

It then updates three pieces of state:

- `currentUserText`, the local participant's interim slot;
- `currentAIText`, one interim slot shared by every remote participant;
- `messages`, an append-only history of `TranscriptMessage` records.

A final batch with non-empty text appends one message and clears its side's slot. Any other batch only overwrites the slot. The hook also registers one transcription handler per remote participant in a `Map` and detaches all of them on cleanup. It registers one local handler, and only when a local participant exists.

**The transcript view** (`TranscriptView`). Two speaking flags and the two interim texts decide which slot is emphasised: large and white, or small and grey. Render guards decide which text blocks appear and when the placeholder appears.

Files:

- `transcription.dfy`, module `Transcription`. Batch reduction (`EffectiveText`, `IsFinal`, and `Split`, which undoes the join for non-empty batches whose texts contain no space). One handler call as the pure transition `Ingest` on a `Transcript` value. Runs of calls (`Replay`) with the append-only and isolation lemmas. The class `TranscriptionHook`, whose methods update the state in place and are proved equal to `Ingest`. The handler registry.
- `transcript_view.dfy`, module `TranscriptView`. The focus rule, the four style expressions, the render guards and `Render`. One lemma links the view to `Ingest`.

Modelling choices:

- `Date.now()` is the parameter `now`. The speaking flags from the voice-activity detector are inputs.
- The SDK's event emitters are reduced to `attached`, a multiset that counts the transcription listeners this hook holds on each remote participant.
- Each handler call is one atomic transition. React applies all the `set…` calls of one handler call together.

Points of the code's behaviour worth knowing:

- There is one AI interim slot, not one slot per source. Every remote participant writes it, so the last batch wins (`RemoteLastBatchWins`).
- Detaching handlers does not clear any interim text. `CleanupRemote` leaves the transcript state unchanged, so a pending AI text survives a change of participants. Re-attaching does not reset it either.
- Messages also carry `isFinal`, which is always true.

## Model

| member | source | states |
|---|---|---|
| `Transcription.EffectiveText` | hooks/useTranscription.ts:26 | The result's length is the sum of the text lengths plus one separator between neighbours. It is empty iff there are no segments or exactly one segment with empty text, so two or more empty segments give a non-empty text. |
| `Transcription.EffectiveTextAppend` | hooks/useTranscription.ts:26 | For any two non-empty batches, whatever their texts contain, the effective text of the two run together is the first's text, one space, then the second's text. With the one-segment case this fixes the contents: the texts in order with single-space separators. |
| `Transcription.EffectiveTextSnoc` | hooks/useTranscription.ts:26-58 | Adding one segment at the end of a non-empty batch appends a single space and that segment's text to the effective text. |
| `Transcription.SplitEffectiveText` | hooks/useTranscription.ts:26-58 | Splitting the effective text on spaces gives back exactly the segment texts, in order, for any non-empty batch whose texts contain no space. Only for such texts can the join be undone; `EffectiveTextAppend` pins the contents for all texts. |
| `Transcription.IsFinal` | hooks/useTranscription.ts:27 | The batch is final iff at least one of its segments has `final` set. |
| `Transcription.Label` | hooks/useTranscription.ts:35 | The label is never empty. It is the identity when that is non-empty; otherwise it is "You" for the local side and "AI Agent" for the remote side. |
| `Transcription.MessageOf` | hooks/useTranscription.ts:34-72 | The appended record has the side's label, the effective text, timestamp `now` and `isFinal` true. `isLocal` is true exactly for the local handler. |
| `Transcription.Ingest` | hooks/useTranscription.ts:29-42 | History is append-only: the old history is a prefix and at most one entry is added. A non-final batch sets the slot to the effective text and keeps the history. A final non-empty batch appends exactly its message. A final empty batch appends nothing. Every final batch leaves the slot `""`. The other side's slot never changes. |
| `Transcription.RemoteLastBatchWins` | hooks/useTranscription.ts:61-74 | All remote participants share one AI slot. After two remote batches, the slot equals what the second batch alone leaves, whoever sent the first. |
| `Transcription.ReplayAppendOnly` | hooks/useTranscription.ts:32-73 | Over any run of handler calls, the earlier history is a prefix of the later one. It grows by exactly the number of final, non-empty batches. |
| `Transcription.ReplayIsolation` | hooks/useTranscription.ts:29-74 | Under any interleaving, a side's slot and the history entries it produced are the same as when that side's events run alone. |
| `Transcription.ReplayOtherSlotUnchanged` | hooks/useTranscription.ts:61-74 | A run of events for one side leaves the other side's slot as it was. |
| `Transcription.InterimThenFinal` | hooks/useTranscription.ts:26-43 | The batch "hel" (interim) shows "hel" and appends nothing. The batch "hello" (final) that follows appends one message with text "hello" and clears the user slot. |
| `Transcription.Registered` | hooks/useTranscription.ts:78-86 | The handler map has exactly the listed participants as keys. Each handler is bound to its own participant. |
| `Transcription.RegisterAll` | hooks/useTranscription.ts:80-86 | Going through the participant list in order fills a fresh map with exactly `Registered(ps)` and attaches one listener per list entry. |
| `Transcription.SetupCleanupRestores` | hooks/useTranscription.ts:80-92 | For a list of distinct participants, attaching one listener per participant and then detaching one per map key leaves the listener counts as they were before setup. |
| `Transcription.DetachAll` | hooks/useTranscription.ts:89-91 | Removes one listener from each key of the map, in any order, and leaves every other participant's count unchanged. |
| `Transcription.TranscriptionHook.constructor` | hooks/useTranscription.ts:14-16 | The hook starts with empty history, empty slots and no handlers. |
| `Transcription.TranscriptionHook.IngestLocal` | hooks/useTranscription.ts:23-44 | The new state equals `Ingest` of the old state for a local event. The history only grows. `currentAIText` and the registry do not change. |
| `Transcription.TranscriptionHook.IngestRemote` | hooks/useTranscription.ts:54-76 | The new state equals `Ingest` of the old state for a remote event. The history only grows. `currentUserText` and the registry do not change. |
| `Transcription.TranscriptionHook.SetupLocal` | hooks/useTranscription.ts:20-46 | Without a local participant nothing is registered. Otherwise the local handler is attached to that participant. Transcript state is untouched. |
| `Transcription.TranscriptionHook.CleanupLocal` | hooks/useTranscription.ts:48-50 | The local handler is detached. Transcript state is untouched. |
| `Transcription.TranscriptionHook.SetupRemote` | hooks/useTranscription.ts:78-86 | A fresh map gets one handler per remote participant, and that many listeners are added to the emitters. Transcript state is untouched. |
| `Transcription.TranscriptionHook.CleanupRemote` | hooks/useTranscription.ts:88-92 | One listener is detached for every handler in the map. Transcript state, including any pending interim text, is untouched. |
| `TranscriptView.UserFocused` | components/TranscriptView.tsx:17-20 | The condition shared by `userTextSize` and `userTextColor`. The user slot is focused whenever the user speaks, never when only the AI speaks, and in silence iff the user text is non-empty. |
| `TranscriptView.AIFocused` | components/TranscriptView.tsx:18-21 | The condition shared by `aiTextSize` and `aiTextColor`. The AI slot is focused whenever the AI speaks, never when only the user speaks, and in silence iff the AI text is non-empty. |
| `TranscriptView.UserTextSize` | components/TranscriptView.tsx:17 | The `userTextSize` expression, written as the component writes it, equals `text-4xl` when `UserFocused` holds and `text-lg` otherwise. |
| `TranscriptView.AITextSize` | components/TranscriptView.tsx:18 | The `aiTextSize` expression, written as the component writes it, equals `text-4xl` when `AIFocused` holds and `text-lg` otherwise. |
| `TranscriptView.UserTextColor` | components/TranscriptView.tsx:20 | The `userTextColor` expression, written as the component writes it, equals `text-white` when `UserFocused` holds and `text-gray-500` otherwise. |
| `TranscriptView.AITextColor` | components/TranscriptView.tsx:21 | The `aiTextColor` expression, written as the component writes it, equals `text-white` when `AIFocused` holds and `text-gray-500` otherwise. |
| `TranscriptView.ShowsUserBlock` | components/TranscriptView.tsx:26 | The user block's guard, true iff the user text is non-empty. A shown user block is emphasised unless the AI speaks. When it is hidden, the user slot is focused only while the user speaks. |
| `TranscriptView.ShowsAIBlock` | components/TranscriptView.tsx:34 | The AI block's guard, true iff the AI text is non-empty. A shown AI block is emphasised unless the user speaks. When it is hidden, the AI slot is focused only while the AI speaks. |
| `TranscriptView.ShowsPlaceholder` | components/TranscriptView.tsx:42 | The placeholder's guard, true iff both texts are empty. While it holds, each slot's focus is its speaking flag alone. |
| `TranscriptView.FocusIsSymmetric` | components/TranscriptView.tsx:17-21 | The AI focus rule is the user focus rule with the two roles exchanged. |
| `TranscriptView.StylesFollowFocus` | components/TranscriptView.tsx:17-21 | Each slot gets `text-4xl` and `text-white` exactly when it is focused, and `text-lg` and `text-gray-500` otherwise, so size and colour always agree. |
| `TranscriptView.OneSpeakerWins` | components/TranscriptView.tsx:17-18 | When exactly one side is speaking, that side is focused and the other is not, whatever the texts are. |
| `TranscriptView.BothSpeakersFocused` | components/TranscriptView.tsx:17-18 | When both sides are speaking, both slots are focused. |
| `TranscriptView.SilenceFallsBackToText` | components/TranscriptView.tsx:17-18 | When neither side is speaking, each slot is focused iff its own text is non-empty. |
| `TranscriptView.Render` | components/TranscriptView.tsx:23-47 | The view renders one or two blocks. The placeholder appears, alone, iff both texts are empty. Each text block appears iff its text is non-empty and carries its slot's style. No other text block appears, so a slot with empty text has no block. The user block comes before the AI block. |
| `TranscriptView.PlaceholderExclusive` | components/TranscriptView.tsx:26-42 | The placeholder guard holds iff neither text block's guard holds. |
| `TranscriptView.ResolverExamples` | components/TranscriptView.tsx:17-18 | In silence, user text "hi" with no AI text focuses only the user. Silence with no text focuses nobody and shows only the placeholder. |
| `TranscriptView.FinalBatchHidesBlock` | hooks/useTranscription.ts:29-74 | After a final batch, that side's block is not rendered. That side is focused only while it is still speaking. The other side's block is rendered as before. |

## Left out

- React effect scheduling, re-render timing and the functional `setMessages(prev => …)` mechanics. Each handler call is one atomic transition, and setup and cleanup are called explicitly.
- The LiveKit SDK. The `on`/`off` emitter is the `attached` listener count. `useIsSpeaking` becomes boolean inputs. `useRemoteParticipants` becomes the list passed to `SetupRemote`. The SDK's routing of an event to a particular handler is not modelled: both `IngestLocal` and `IngestRemote` take the identity as a parameter. `IngestLocal`'s identity is not tied to `localListener.identity`, and `IngestRemote`'s is not tied to a participant with an attached handler.
- `Date.now()` is a parameter. Clock behaviour is not modelled.
- A remote participant list with duplicates would attach two listeners and detach one. `SetupCleanupRestores` assumes the list is distinct, as the SDK's list is.
- Markup and CSS beyond the four class names that carry the focus decision. The view's "You:"/"AI:" captions and layout classes are not modelled.
- The other components and pages: audio visualizer, connection screen, control bar, chat history, room, page and layout. They do canvas drawing with floating point, browser media and permission I/O, device switching through the SDK, list rendering, and wiring.

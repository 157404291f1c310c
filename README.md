# Zombie game narration audio and turn loop, in Dafny

This project models the logic of the zombie survival game's web client and
story route, and proves properties about that model. It covers:

- **Narration payloads and playback** (`src/lib/audio-utils.ts`):
  - `createAudioBlob` strips an anchored `data:audio/<type>;base64,` prefix,
    decodes the payload with `atob`, copies the character codes into a byte
    array in a loop, and canonicalises the MIME type.
  - The two play functions, with every browser step reduced to the outcome it
    has. For each play the model records the callbacks it fires, in order, and
    how its promise settles.
  - `getAudioErrorMessage`.
  - The `AudioQueue` class, a FIFO of narration items. Each awaited load and
    each `ended` event is an explicit method call.
- **The `useAudioPlayer` hook** (`src/hooks/useAudioPlayer.ts`):
  - Every `setState(prev => …)` updater is a pure function on the state record.
  - The hook itself is a class with a state field and an optional queue created
    once.
- **The `useZombieGame` hook** (`src/app/hooks/use-zombie-game.ts`): a class
  holding the message list, the loading flag and the input box, with pure
  functions for the `map` updates.
- **The story route's `POST` handler** (`src/app/api/generate-story/route.ts`):
  a pure function. It selects the prompt, renders the history as
  `role: content` lines, and splits the model's text on `IMAGEN:`.

The JavaScript built-ins the core relies on are stated once, with their
ECMAScript meaning, in `JsText`: `trim`, `includes`, `indexOf`, `split` and
`join`. The WHATWG forgiving-base64 decode behind `atob` is stated in `Base64`,
together with the RFC 4648 (section 4) encoder that produces the payloads.

Files and modules:
`wrappers.dfy` (`Wrappers`), `js_text.dfy` (`JsText`), `base64.dfy`
(`Base64`), `audio_blob.dfy` (`AudioBlob`), `playback.dfy` (`Playback`),
`audio_queue.dfy` (`SequentialQueue`), `audio_player.dfy` (`AudioPlayer`),
`zombie_game.dfy` (`ZombieGame`), `story_route.dfy` (`StoryRoute`).

Where the code does something other than what its comments or the game's
documentation suggest, the model follows the code:

- When both engines fail, the fallback reports the failure to `onError` twice:
  once from the wrapped callback, once from the catch around it.
- After the last item ends on its own, the queue keeps the ended element, so
  `getStatus` reports `isPaused` as true.
- `stop` does not cancel a load that is still awaited.
- A continuation request without `conversationHistory` makes `.map` throw, so
  the route answers 500.

## Model

| member | source | states |
|---|---|---|
| JsText.Trim | src/app/api/generate-story/route.ts:36-37 | `trim` returns the one slice of the input that is trimmed and has only whitespace around it. It is empty exactly when the input is all whitespace. |
| JsText.TrimmedSlice | src/app/api/generate-story/route.ts:36-37 | The slice between the leading and the trailing whitespace is trimmed. It is empty exactly when the string is all whitespace, and only whitespace surrounds it. |
| JsText.TrimTrimmed | src/app/api/generate-story/route.ts:36-37 | Trimming an already trimmed string returns it unchanged. |
| JsText.IndexOf | src/app/api/generate-story/route.ts:34 | `indexOf`, which `split` and `includes` rest on, finds the first occurrence at or after the start index, or reports that there is none. |
| JsText.IndexOfContains | src/lib/audio-utils.ts:24-28 | `indexOf` from 0 finds a match exactly when `includes` holds. |
| JsText.Contains | src/lib/audio-utils.ts:24-28 | `includes`: the text occurs at some position of the string. |
| JsText.Split | src/app/api/generate-story/route.ts:34 | `split` yields at least one piece. No piece contains the separator, and joining the pieces with the separator gives back the input. |
| JsText.SplitPieces | src/app/api/generate-story/route.ts:34 | `split` has a second piece exactly when the separator occurs. The first piece is the text before the first occurrence. |
| JsText.SplitJoin | src/app/api/generate-story/route.ts:18-20 | `split` undoes `join` when no piece contains a border-free separator. |
| JsText.FirstOccurrenceAfterPiece | src/app/api/generate-story/route.ts:34 | A border-free separator placed after a piece that lacks it is found right after that piece. |
| JsText.Join | src/app/api/generate-story/route.ts:20 | `join`: the pieces with the separator between neighbours and none at the ends. |
| Base64.DecodeEncode | src/lib/audio-utils.ts:15 | The forgiving decode behind `atob` returns exactly the bytes of any RFC 4648 padded encoding. |
| Base64.ForgivingDecode | src/lib/audio-utils.ts:15 | The WHATWG forgiving decode succeeds exactly when, after removing ASCII whitespace and up to two `=`, the text is all base64 digits and its length is not 1 modulo 4. |
| Base64.BinaryString | src/lib/audio-utils.ts:15 | The binary string `atob` returns, one character per byte; `BinaryStringCodes` and `AtobCodes` state its meaning. |
| Base64.DecodeEncodeDigits | src/lib/audio-utils.ts:15 | The digits of an encoding decode back to the bytes, three bytes per four digits (proved by induction). |
| Base64.Atob | src/lib/audio-utils.ts:15 | `atob` succeeds exactly when the forgiving decode does. It then returns one character per decoded byte; otherwise it throws the fixed error. |
| Base64.HelloExample | src/lib/audio-utils.ts:15 | `SGVsbG8=` decodes to the bytes of `Hello`. |
| AudioBlob.DataUriPrefixLength | src/lib/audio-utils.ts:9-12 | The anchored pattern matches at most one prefix. The function returns that prefix's length, or 0 when there is no match. |
| AudioBlob.StripDataUriPrefix | src/lib/audio-utils.ts:9-12 | The payload after the anchored prefix; `StripAnchored` states what it removes. |
| AudioBlob.IsDataUriPrefix | src/lib/audio-utils.ts:9-12 | What the anchored pattern matches in full: `data:audio/`, one or more characters other than `;`, then `;base64,`. `DataUriPrefixLength` and `StripPrepended` state its meaning. |
| AudioBlob.StripAnchored | src/lib/audio-utils.ts:9-12 | The prefix is removed only when it stands at the very start. Otherwise the payload is kept unchanged. |
| AudioBlob.StripPrepended | src/lib/audio-utils.ts:9-12 | A `data:audio/<subtype>;base64,` prefix for any subtype without ';' is removed exactly. |
| AudioBlob.StripEncoded | src/lib/audio-utils.ts:9-12 | A bare base64 payload is never mistaken for a prefix. |
| AudioBlob.MimeTypeCanonical | src/lib/audio-utils.ts:23-30 | The result is one of the three canonical types exactly when the type mentions mp3/mpeg, wav or ogg. Any other type passes through unchanged. |
| AudioBlob.CanonicalKeywords | src/lib/audio-utils.ts:23-30 | Each canonical type contains only the keywords that map back to itself. |
| AudioBlob.MimeTypeIdempotent | src/lib/audio-utils.ts:23-30 | Normalising twice is normalising once. |
| AudioBlob.BlobType | src/lib/audio-utils.ts:39 | The type `new Blob` keeps: empty exactly when the type is empty or has a character outside U+0020 to U+007E, otherwise the same length with each character lowercased in ASCII. The result is always printable lower-case ASCII. |
| AudioBlob.AsciiLower | src/lib/audio-utils.ts:39 | The lowercased character is never an upper-case ASCII letter. It is printable exactly when the input is, and any other character is kept. |
| AudioBlob.BlobTypeKeeps | src/lib/audio-utils.ts:39 | A printable lower-case type is kept unchanged, and the constructor's rule is idempotent. |
| AudioBlob.CanonicalBlobTypes | src/lib/audio-utils.ts:39 | `audio/mpeg`, `audio/wav` and `audio/ogg` pass through the constructor unchanged. |
| AudioBlob.BlobTypeExamples | src/lib/audio-utils.ts:39 | `Audio/L16` is kept as `audio/l16`, and a type holding `ó` becomes empty. |
| AudioBlob.NormalizeMimeType | src/lib/audio-utils.ts:23-30 | The if-chain: mp3 or mpeg first, then wav, then ogg, else the type unchanged; `MimeTypeCanonical` states its meaning. |
| AudioBlob.BlobOf | src/lib/audio-utils.ts:6-46 | What `createAudioBlob` returns or throws, as a value, with the type kept as the Blob constructor keeps it; `BlobOfAtob` and `CreateAudioBlob` state its meaning. |
| AudioBlob.CreateAudioBlob | src/lib/audio-utils.ts:6-46 | Creating the blob (strip, decode, copy loop, MIME normalisation, the Blob constructor's type rule, wrapped error) gives exactly the value `BlobOf`. |
| AudioBlob.CopyCharCodes | src/lib/audio-utils.ts:16-20 | The `Uint8Array` has the string's length, and byte i is the code of character i modulo 256. |
| AudioBlob.CharCode | src/lib/audio-utils.ts:19 | `charCodeAt`: the code of a character. `BinaryStringCodes` and `AtobCodes` state what reading the codes back gives. |
| AudioBlob.BinaryStringCodes | src/lib/audio-utils.ts:15-20 | Reading back the codes of `atob`'s binary string gives the decoded bytes. |
| AudioBlob.BlobOfAtob | src/lib/audio-utils.ts:6-46 | The blob exists exactly when `atob` succeeds on the stripped payload. Each byte is the code of the matching character modulo 256, and the type is normalised and then kept by the Blob constructor's rule. A failure carries `atob`'s message behind `Failed to create audio blob: `. |
| AudioBlob.AtobCodes | src/lib/audio-utils.ts:15-20 | The codes of `atob`'s characters, modulo 256, are the decoded bytes, and `atob` has the same length as the decoding. |
| AudioBlob.BlobOfDataUri | src/lib/audio-utils.ts:6-46 | Encoding bytes and wrapping them in a data URI gives back those bytes, typed as the constructor keeps the normalised type. A recognised type ends up exactly canonical. |
| AudioBlob.BlobOfBare | src/lib/audio-utils.ts:6-46 | A bare encoded payload gives back its bytes, typed as the constructor keeps the normalised type. |
| AudioBlob.BlobErrorsArePrefixed | src/lib/audio-utils.ts:40-45 | Every blob failure message starts with `Failed to create audio blob: `. |
| AudioBlob.HelloBlob | src/lib/audio-utils.ts:6-46 | `data:audio/mp3;base64,SGVsbG8=` gives the bytes of `Hello`, typed `audio/mpeg`. |
| Playback.Clamp | src/lib/audio-utils.ts:99-101 | `Math.max(0, Math.min(1, v))` lies in [0,1]. It keeps a value already in range, and sends values below or above the range to the nearer bound. |
| Playback.ClampIdempotent | src/lib/audio-utils.ts:156-158 | Clamping twice is clamping once. |
| Playback.ApplyVolume | src/lib/audio-utils.ts:156-158 | A given volume is clamped into [0,1]. An absent one leaves the engine's level untouched. |
| Playback.UnknownOnlyOutsideCodes | src/lib/audio-utils.ts:236-249 | `getAudioErrorMessage` reads "Unknown error" exactly for codes outside 1 to 4. |
| Playback.ErrorMessagesDistinct | src/lib/audio-utils.ts:236-249 | The four media error codes map to four different texts. |
| Playback.GetAudioErrorMessage | src/lib/audio-utils.ts:236-249 | The text for each media error code; `UnknownOnlyOutsideCodes` and `ErrorMessagesDistinct` state its meaning. |
| Playback.PausedElement | src/lib/audio-utils.ts:299-304 | The element that reached its end, paused; `DrainEndsPaused` states its meaning. |
| Playback.PlayWithWebAudio | src/lib/audio-utils.ts:51-121 | The callbacks fired and the settlement of a Web Audio play; `WebAudioOutcome` states its meaning. |
| Playback.WebAudioOutcome | src/lib/audio-utils.ts:51-121 | Web Audio plays exactly when the context, the blob and the decode all work. It then fires `onStart` alone, and the gain is exactly `Clamp` of a given volume, or the default 1. Otherwise it fires `onError` alone, with the error it rejects with. |
| Playback.BothFailedNamesBoth | src/lib/audio-utils.ts:202-203 | The double-failure text contains both the element's error text and the Web Audio message. |
| Playback.BothFailed | src/lib/audio-utils.ts:202-203 | The text of the error composed when both engines fail; `BothFailedNamesBoth` states its meaning. |
| Playback.ErrorCode | src/lib/audio-utils.ts:203 | `audio.error?.code`, falling back to 0: the element's error code, or 0 when there is none. `BothFailuresNamed` states what the message then names. |
| Playback.FreshAudio | src/lib/audio-utils.ts:140 | A `new Audio()`: no source, paused, volume 1, at time 0. `FallbackRecovers` states when a play resolves with one. |
| Playback.HtmlVolumeClamped | src/lib/audio-utils.ts:151-173 | An element that reaches `canplay` carries the blob, and its volume is exactly `ApplyVolume` of the option over the default 1, so it lies in [0,1]. |
| Playback.FallbackRecovers | src/lib/audio-utils.ts:185-210 | When the element fails and Web Audio plays, the promise resolves with a fresh element after two `onStart` calls and no `onError`. |
| Playback.BothFailuresNamed | src/lib/audio-utils.ts:198-217 | When both engines fail, the rejection names both causes, and `onError` receives it twice. |
| Playback.HtmlPathCallbacks | src/lib/audio-utils.ts:143-230 | The callbacks the element path fires before it settles, for each way it can settle. |
| Playback.RejectionReported | src/lib/audio-utils.ts:126-231 | On every path, a rejection is preceded by `onError` with the same error as the last callback. |
| Playback.BlobFailureFirst | src/lib/audio-utils.ts:143-230 | A blob that cannot be built is reported, with its own prefixed message, before either engine is touched. |
| Playback.PlayFromBase64 | src/lib/audio-utils.ts:126-231 | The callbacks fired and the settlement of a play, element first with the Web Audio fallback; the lemmas above state its meaning. |
| SequentialQueue.PlayNextTakesHead | src/lib/audio-utils.ts:283-315 | `playNext` hands on the head and keeps the order of the rest. On an empty queue it goes idle and fires `onEnd`, with nothing else changed. |
| SequentialQueue.EnqueueAppends | src/lib/audio-utils.ts:271-278 | `enqueue` appends at the tail. An idle queue starts the new item at once, and a playing queue leaves it waiting. |
| SequentialQueue.AfterPlayNext | src/lib/audio-utils.ts:283-297 | `playNext` on the state; `PlayNextTakesHead` states its meaning. |
| SequentialQueue.AfterEnqueue | src/lib/audio-utils.ts:271-278 | `enqueue` on the state; `EnqueueAppends` states its meaning. |
| SequentialQueue.AfterSettle | src/lib/audio-utils.ts:298-314 | An awaited load and its `play()` settling; `FailureHandsOn` and `StopDoesNotCancelPending` state its meaning. |
| SequentialQueue.AfterEnded | src/lib/audio-utils.ts:299-304 | The per-item `onEnd`; `DrainEndsPaused` states its meaning. |
| SequentialQueue.AfterPause | src/lib/audio-utils.ts:320-324 | `pause` on the state; `PauseResume` states its meaning. |
| SequentialQueue.AfterResume | src/lib/audio-utils.ts:329-333 | `resume` on the state; `PauseResume` states its meaning. |
| SequentialQueue.AfterStop | src/lib/audio-utils.ts:338-346 | `stop` on the state; `StopResets` states its meaning. |
| SequentialQueue.StatusOf | src/lib/audio-utils.ts:351-357 | `getStatus` of the state; `StopResets` and `DrainEndsPaused` state its meaning. |
| SequentialQueue.EventKeepsValid | src/lib/audio-utils.ts:254-358 | Every call and event keeps an idle queue empty. |
| SequentialQueue.EventKeepsOrder | src/lib/audio-utils.ts:271-315 | An event other than `stop` moves items from the queue to the player in order, and adds a pushed item at the tail. |
| SequentialQueue.FifoOrder | src/lib/audio-utils.ts:271-315 | Until the next `stop`, items reach the player in the order they were enqueued (proved by induction). |
| SequentialQueue.EventsKeepValid | src/lib/audio-utils.ts:254-358 | Any run of events keeps an idle queue empty (proved by induction). |
| SequentialQueue.FailureHandsOn | src/lib/audio-utils.ts:298-314 | Any failed settle (a rejected load or a refused `play()`) fires the run's callbacks and one more `onError` with its message, then hands on the head, or goes idle and fires `onEnd` on an empty queue. A rejected load keeps the current element. |
| SequentialQueue.FailuresDrain | src/lib/audio-utils.ts:298-314 | Any run of failed settles, one per waiting item plus one, never stalls the drain. Every waiting item is handed on in order, each failure's callbacks and message are reported, and the queue then goes idle and fires `onEnd` (proved by induction). When every load was rejected, the current element is unchanged. |
| SequentialQueue.DoubleFailureHandsOn | src/lib/audio-utils.ts:185-314 | When both engines fail on a waiting item, the queue reports the composed error three times after `onStart` and hands on the next item. |
| SequentialQueue.StopResets | src/lib/audio-utils.ts:338-357 | After `stop` the status is not playing, length 0 and not paused, whatever came before. A second `stop` changes nothing. |
| SequentialQueue.DrainEndsPaused | src/lib/audio-utils.ts:283-357 | When the last item ends on its own, the queue fires `onEnd` and reports `isPaused` as true. |
| SequentialQueue.StopDoesNotCancelPending | src/lib/audio-utils.ts:298-346 | A load that resolves after `stop` keeps its element playing, while the status says the queue is idle. |
| SequentialQueue.PauseResume | src/lib/audio-utils.ts:320-333 | `resume` after `pause` restores a playing element. `pause` on a paused or missing element changes nothing. |
| SequentialQueue.AudioQueue.constructor | src/lib/audio-utils.ts:255-266 | A new queue is empty, idle and has no element. |
| SequentialQueue.AudioQueue.PlayNext | src/lib/audio-utils.ts:283-297 | The new state is `AfterPlayNext` of the old one. |
| SequentialQueue.AudioQueue.Enqueue | src/lib/audio-utils.ts:271-278 | The new state is `AfterEnqueue` of the old one, and the idle-means-empty invariant still holds. |
| SequentialQueue.AudioQueue.OnAttemptSettled | src/lib/audio-utils.ts:298-314 | A load that was handed on and is still pending settles; its `play()` then updates the state as `AfterSettle` says. The load is no longer pending, and the invariant still holds. |
| SequentialQueue.AudioQueue.SettleRun | src/lib/audio-utils.ts:298-314 | Whatever the load fired and however it settled, the pending item is marked settled and the state changes as `AfterSettle` says, keeping the invariant. |
| SequentialQueue.AudioQueue.UpdateOnSettle | src/lib/audio-utils.ts:298-314 | The fields change as `AfterSettle` says. An idle queue stays empty, and items handed on are only added. |
| SequentialQueue.AudioQueue.OnItemEnded | src/lib/audio-utils.ts:299-304 | The ended element is paused and the next item is played, and the invariant still holds. |
| SequentialQueue.AudioQueue.Pause | src/lib/audio-utils.ts:320-324 | The new state is `AfterPause` of the old one. |
| SequentialQueue.AudioQueue.Resume | src/lib/audio-utils.ts:329-333 | The new state is `AfterResume` of the old one. |
| SequentialQueue.AudioQueue.Stop | src/lib/audio-utils.ts:338-346 | The new state is `AfterStop` of the old one, and the invariant still holds. |
| SequentialQueue.AudioQueue.GetStatus | src/lib/audio-utils.ts:351-357 | The status reports the queue length and `isPlaying`. `isPaused` holds only for a current element. |
| AudioPlayer.InitialStateDefaults | src/hooks/useAudioPlayer.ts:20-32 | The player starts idle, not loading, with no error and no element. The volume defaults to 0.7 and a given volume is kept as it is. |
| AudioPlayer.StopEndsIdle | src/hooks/useAudioPlayer.ts:141-145 | After stop the player is not playing and has no element, whatever came before. No other field changes, and stopping twice is stopping once. |
| AudioPlayer.SetVolumeClamps | src/hooks/useAudioPlayer.ts:148-157 | The stored volume is clamped, no other field changes, and setting it again changes nothing. |
| AudioPlayer.PauseResumeFlags | src/hooks/useAudioPlayer.ts:116-132 | Pause clears `isPlaying` and resume sets it. Neither touches any other field. |
| AudioPlayer.FailuresRecorded | src/hooks/useAudioPlayer.ts:46-188 | Every failure updater records the message and clears the playing or loading flags as the source does. |
| AudioPlayer.DirectCallbacks | src/hooks/useAudioPlayer.ts:69-91 | The direct-mode callbacks of a resolved load leave the player playing and not loading. Those of a rejected load leave the same record as one `onError`. |
| AudioPlayer.DirectSettleOutcome | src/hooks/useAudioPlayer.ts:67-111 | A direct load never leaves the player loading. A rejection is recorded with playback off. A resolution keeps the element and counts as playing unless autoplay was refused. |
| AudioPlayer.DirectPlayOutcome | src/hooks/useAudioPlayer.ts:56-114 | Direct `playAudio` never throws and never leaves the player loading. A resolution clears any earlier error. Failures are recorded with their messages. |
| AudioPlayer.GenerateErrorsRecorded | src/hooks/useAudioPlayer.ts:174-188 | A response that is not ok, or one that throws, is recorded as an error and loading ends. Playback is left as it was. |
| AudioPlayer.InitialState | src/hooks/useAudioPlayer.ts:26-32 | The first state; `InitialStateDefaults` states its meaning. |
| AudioPlayer.Apply | src/hooks/useAudioPlayer.ts:41-188 | Each `setState` updater on the record; the lemmas above state its meaning. |
| AudioPlayer.DirectSettle | src/hooks/useAudioPlayer.ts:67-111 | The record after a direct load settles; `DirectSettleOutcome` states its meaning. |
| AudioPlayer.DirectPlay | src/hooks/useAudioPlayer.ts:56-114 | The record after a direct `playAudio`; `DirectPlayOutcome` states its meaning. |
| AudioPlayer.QueueUpdate | src/hooks/useAudioPlayer.ts:40-52 | The updater each queue callback applies: `onStart` plays and clears the error, `onEnd` stops playing, and `onError` records the message. `FailuresRecorded` states its effect. |
| AudioPlayer.DirectUpdate | src/hooks/useAudioPlayer.ts:69-91 | The updater each direct-mode callback applies. `DirectCallbacks` states its effect. |
| AudioPlayer.Player.constructor | src/hooks/useAudioPlayer.ts:19-54 | The hook starts in the initial state. A queue is created once, with the state's volume, exactly when `useQueue` is set. |
| AudioPlayer.Player.DeliverQueueCallbacks | src/hooks/useAudioPlayer.ts:40-52 | The queue's new callbacks apply their updaters in order. |
| AudioPlayer.Player.PlayAudio | src/hooks/useAudioPlayer.ts:56-114 | In queue mode, the player starts loading, enqueues the item and stops loading; the loads the queue has settled stay as they were, so the load this starts is still pending. In direct mode, the new state is `DirectPlay` of the old one. |
| AudioPlayer.Player.OnDirectEnded | src/hooks/useAudioPlayer.ts:76-82 | The direct `onEnd` updater clears playing and the element. |
| AudioPlayer.Player.OnQueueAttemptSettled | src/hooks/useAudioPlayer.ts:40-52 | The queue settles one of its pending loads, which joins the settled ones, and the player's state follows the callbacks the queue fired. |
| AudioPlayer.Player.OnQueueItemEnded | src/hooks/useAudioPlayer.ts:40-52 | The queue moves on with its settled loads unchanged, so the load it hands on is pending, and the player's state follows its callbacks. |
| AudioPlayer.Player.PauseAudio | src/hooks/useAudioPlayer.ts:116-123 | Pause reaches the queue or the playing element, and the state stops playing. The queue's settled loads stay, so a pending load can still settle. |
| AudioPlayer.Player.ResumeAudio | src/hooks/useAudioPlayer.ts:125-132 | Resume reaches the queue or the paused element, and the state plays. The queue's settled loads stay, so a pending load can still settle. |
| AudioPlayer.Player.StopAudio | src/hooks/useAudioPlayer.ts:134-146 | Stop reaches the queue or rewinds the element, and the state ends idle without an element. The queue's settled loads stay, so a load that outlives the stop can still settle. |
| AudioPlayer.Player.SetVolume | src/hooks/useAudioPlayer.ts:148-159 | The clamped volume goes to the element and to the state. |
| AudioPlayer.Player.GenerateAndPlayAudio | src/hooks/useAudioPlayer.ts:161-191 | A failed request is recorded as an error and leaves the queue as it was. A delivered audio is played as `playAudio` does: directly, or enqueued at the tail with the loading flag set twice and then cleared. The queue's settled loads stay in every case. |
| AudioPlayer.LateSettleAfterStop | src/hooks/useAudioPlayer.ts:40-146 | Through the hook alone, an item is played and stopped while its load is pending; that load still settles afterwards, nothing stays pending and the emptied queue stays empty. |
| AudioPlayer.Player.QueueStatus | src/hooks/useAudioPlayer.ts:209 | The queue's status is reported in queue mode, and nothing in direct mode. |
| ZombieGame.WithImage | src/app/hooks/use-zombie-game.ts:61-69 | Only the message with the id gets the image and stops loading. Every other message is unchanged, and the length is kept. |
| ZombieGame.ImageFailed | src/app/hooks/use-zombie-game.ts:73-81 | Only the message with the id stops loading, keeping its image. Every other message is unchanged. |
| ZombieGame.WithImageKeepsList | src/app/hooks/use-zombie-game.ts:61-69 | Ids, roles and texts stay in place, and attaching twice is attaching once. Without a matching id nothing changes. |
| ZombieGame.ImageFailedKeepsImages | src/app/hooks/use-zombie-game.ts:73-81 | No image is cleared, and no message with the id is still loading. |
| ZombieGame.CanSubmit | src/app/hooks/use-zombie-game.ts:90 | A submission goes ahead exactly when nothing is loading and the input is not all whitespace. |
| ZombieGame.Game.constructor | src/app/hooks/use-zombie-game.ts:6-8 | The game starts with no messages, not loading and an empty input. |
| ZombieGame.Game.StartGame | src/app/hooks/use-zombie-game.ts:14-21 | Loading starts, nothing else changes, and the story route is asked for an opening. |
| ZombieGame.Game.StartSettled | src/app/hooks/use-zombie-game.ts:23-44 | A story replaces the list with one loading assistant message and requests its image. A failure keeps the list. Either way loading ends. |
| ZombieGame.Game.ImageSettled | src/app/hooks/use-zombie-game.ts:47-85 | The image is attached to its message, or that message stops loading. Either way loading ends. |
| ZombieGame.Game.HandleSubmit | src/app/hooks/use-zombie-game.ts:87-112 | A blank input or a busy game changes nothing and sends nothing. Otherwise loading starts, the raw input is appended as a user message, the input is cleared, and the request carries the input and the list as it was before. |
| ZombieGame.Game.SubmitSettled | src/app/hooks/use-zombie-game.ts:114-135 | A story appends a loading assistant message and requests its image. A failure keeps the list. Either way loading ends. |
| ZombieGame.Game.HandleInputChange | src/app/hooks/use-zombie-game.ts:138-140 | Only the input changes. |
| ZombieGame.SubmitWhileStoryPending | src/app/hooks/use-zombie-game.ts:47-136 | An image that settles while a story is pending clears the flag, so a second non-blank input is submitted before the first story arrives. |
| StoryRoute.HistoryLines | src/app/api/generate-story/route.ts:18-20 | There is one `role: content` line per message, in order. |
| StoryRoute.HistoryLinesRecovered | src/app/api/generate-story/route.ts:18-20 | For a non-empty history in which no field holds a newline, splitting the rendered history on newlines gives back the lines, one per message. (An empty history renders as `""`, which splits into `[""]`.) |
| StoryRoute.ParseFailsWithoutSeparator | src/app/api/generate-story/route.ts:34-43 | The answer is the 500 error exactly when `IMAGEN:` is missing. |
| StoryRoute.ParsePieces | src/app/api/generate-story/route.ts:34-39 | The story is the trimmed text before the first separator. The description is the trimmed text up to the next separator or the end. |
| StoryRoute.SeparatorBorderFree | src/lib/consts.ts:21 | No proper suffix of `IMAGEN:` is also a prefix of it. |
| StoryRoute.ParseRoundTrip | src/app/api/generate-story/route.ts:34-39 | A story and a description without the separator, written around it, parse back trimmed. |
| StoryRoute.PostOutcome | src/app/api/generate-story/route.ts:11-44 | The initial or continue prompt is chosen by `isStart`. Bad JSON, a missing history and a throwing model all give the 500 answer. A story answer has both fields trimmed. |
| StoryRoute.RenderHistory | src/app/api/generate-story/route.ts:18-20 | The history as `role: content` lines joined by newlines; `HistoryLinesRecovered` states its meaning. |
| StoryRoute.PromptFor | src/app/api/generate-story/route.ts:13-23 | The initial prompt, or the continue prompt over the rendered history; `PostOutcome` states its meaning. |
| StoryRoute.ParseReply | src/app/api/generate-story/route.ts:34-43 | The split on `IMAGEN:` and the trims, or the 500 answer; `ParsePieces` states its meaning. |
| StoryRoute.Post | src/app/api/generate-story/route.ts:11-44 | The handler as a value; `PostOutcome` states its meaning. |

## Left out

- Real browser media: `HTMLAudioElement` loading and events, `AudioContext`, gain nodes and object URLs. Each engine attempt is an abstract outcome (`MediaOutcome`, `WebAudioEngine`, `Outcome`).
- Promise scheduling: each awaited load of the queue, each `ended` of a queued element, a direct element's `ended`, and each story and image answer of the game is a method of its own, and any order of those calls is a possible schedule. Inside one call the steps run without interruption: `playAudioFromBase64` and `playAudioWithWebAudioAPI` are settled as a whole, and so is the `fetch` of `generateAndPlayAudio`.
- SequentialQueue.AfterSettle: the queue's two awaits, the load of `playAudioFromBase64` and the element's `play()`, are merged into one event. So a `stop()` between them is not modelled. In the browser that `stop()` pauses the element, which rejects the pending `play()`, and the catch then fires `onError` and `onEnd` and leaves no current element. In the model, a stop before the merged event lets its element become current, and a stop after it hands on an item the browser would already have dropped.
- A media `error` event that arrives after `canplay` has resolved the play, and the `ended` event of a Web Audio source, are not modelled.
- Element identity: media elements are values, so two references to one element (the hook's and the queue's) are not modelled as aliases. For the same reason, the `pause()` (and, in `stopAudio`, the rewind) applied to an element that is dropped in the same call is not observable and not modelled.
- Volume is a real number; NaN and non-numeric volumes are not modelled.
- Playback.PlayFromBase64: a thrown value that is not an `Error` (the "Unknown error" and "Unknown audio error" replacements) is not modelled; every failure carries a message.
- Base64.AtobFailure: the text of `atob`'s `InvalidCharacterError` is the browser's own; the model fixes one message and only its `Failed to create audio blob: ` prefix is relied on.
- AudioPlayer.Player.GenerateAndPlayAudio: a response whose JSON lacks `audio` is not modelled; the response is either not ok, a thrown error, or delivered audio.
- AudioPlayer.Player.PlayAudio: the callbacks capture `state.volume` from the render that created them; the model reads the current volume.
- `fetch` requests, the text, image and speech SDKs, and credential setup are left out. Their results are parameters: `Response`, `StoryData`, `Option<string>` and the `generate` function of `StoryRoute.Post`.
- The prompt templates are static text and stay abstract (`StoryRoute.Prompt`). The ids from `crypto.randomUUID` are parameters.
- The `generate-audio` and `generate-image` routes, the view components and mute are not part of this model.
- The client sends `history` and the route reads `conversationHistory`; this request contract is not modelled beyond the route's own handling of a missing history.
- `console.log` and `console.error` diagnostics are left out.

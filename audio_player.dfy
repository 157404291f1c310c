/** The `useAudioPlayer` hook of src/hooks/useAudioPlayer.ts: a state record
    changed only through `setState(prev => …)` updaters, and the operations
    that issue them, in direct mode (one element at a time) or queue mode (an
    `AudioQueue` created once). */
module AudioPlayer {
  import opened Wrappers
  import opened AudioBlob
  import opened Playback
  import SequentialQueue

  /** `AudioPlayerState`. */
  datatype PlayerState = PlayerState(
    isPlaying: bool,
    isLoading: bool,
    error: Option<string>,
    currentAudio: Option<MediaElement>,
    volume: real)

  /** The state the hook starts in; the volume option defaults to 0.7 and is
      taken as given, without clamping. */
  function InitialState(volume: Option<real>): PlayerState
  {
    PlayerState(false, false, None, None, match volume case Some(v) => v case None => 0.7)
  }

  /** Each `setState` updater the hook issues. */
  datatype Update =
    | BeginLoad               // playAudio and generateAndPlayAudio start
    | Enqueued                // queue mode, after the enqueue
    | QueueStarted            // the queue's onStart
    | QueueEnded              // the queue's onEnd
    | QueueFailed(message: string)   // the queue's onError
    | DirectStarted           // direct mode onStart
    | DirectEnded             // direct mode onEnd
    | DirectFailed(message: string)  // direct mode onError
    | Resolved(audio: MediaElement)  // the element playAudioFromBase64 resolved with
    | PlayFailed(message: string)    // playAudio's catch
    | Paused
    | Resumed
    | Stopped
    | VolumeSet(volume: real)
    | GenerateFailed(message: string) // generateAndPlayAudio's catch

  /** The record each updater returns from `prev`. */
  function Apply(s: PlayerState, u: Update): PlayerState
  {
    match u
    case BeginLoad => s.(isLoading := true, error := None)
    case Enqueued => s.(isLoading := false)
    case QueueStarted => s.(isPlaying := true, error := None)
    case QueueEnded => s.(isPlaying := false)
    case QueueFailed(m) => s.(error := Some(m), isPlaying := false)
    case DirectStarted => s.(isPlaying := true, isLoading := false)
    case DirectEnded => s.(isPlaying := false, currentAudio := None)
    case DirectFailed(m) => s.(error := Some(m), isPlaying := false, isLoading := false, currentAudio := None)
    case Resolved(audio) => s.(currentAudio := Some(audio))
    case PlayFailed(m) => s.(error := Some(m), isLoading := false, isPlaying := false)
    case Paused => s.(isPlaying := false)
    case Resumed => s.(isPlaying := true)
    case Stopped => s.(isPlaying := false, currentAudio := None)
    case VolumeSet(v) => s.(volume := v)
    case GenerateFailed(m) => s.(error := Some(m), isLoading := false)
  }

  function ApplyAll(s: PlayerState, updates: seq<Update>): PlayerState
    decreases |updates|
  {
    if updates == [] then s else ApplyAll(Apply(s, updates[0]), updates[1..])
  }

  /** The updater behind each callback the hook hands to the queue. */
  function QueueUpdate(c: Callback): Update
  {
    match c
    case OnStart => QueueStarted
    case OnEnd => QueueEnded
    case OnError(m) => QueueFailed(m)
  }

  /** The updater behind each callback the hook hands to `playAudioFromBase64`. */
  function DirectUpdate(c: Callback): Update
  {
    match c
    case OnStart => DirectStarted
    case OnEnd => DirectEnded
    case OnError(m) => DirectFailed(m)
  }

  function QueueUpdates(fired: seq<Callback>): seq<Update>
  {
    seq(|fired|, i requires 0 <= i < |fired| => QueueUpdate(fired[i]))
  }

  function DirectUpdates(fired: seq<Callback>): seq<Update>
  {
    seq(|fired|, i requires 0 <= i < |fired| => DirectUpdate(fired[i]))
  }

  /** `playAudio` in direct mode: begin loading, let the player's callbacks
      update the record as they fire, keep the element it resolves with and,
      with `autoPlay`, play it; a rejection of either promise is caught. */
  function DirectPlay(s: PlayerState, autoPlay: bool, audio: GeneratedAudio,
                      media: MediaOutcome, web: WebAudioEngine, play: Outcome): PlayerState
  {
    DirectSettle(Apply(s, BeginLoad), autoPlay, PlayFromBase64(audio, Some(s.volume), false, media, web), play)
  }

  /** The rest of direct `playAudio` once loading has begun and the load has
      fired the callbacks of `run` and settled. */
  function DirectSettle(s: PlayerState, autoPlay: bool, run: Run<MediaElement>, play: Outcome): PlayerState
  {
    var afterCallbacks := ApplyAll(s, DirectUpdates(run.fired));
    match run.result
    case Err(m) => Apply(afterCallbacks, PlayFailed(m))
    case Ok(element) =>
      var resolved := Apply(afterCallbacks, Resolved(element));
      if !autoPlay then resolved
      else match play
        case Works => resolved.(currentAudio := Some(element.(paused := false)))
        case Fails(m) => Apply(resolved, PlayFailed(m))
  }

  /** The fixed message for a response that is not ok. */
  const GenerateFailure := "Error al generar audio"

  /** What the audio route answers: not ok, a thrown error (network, JSON),
      or the audio to play. */
  datatype Response = NotOk | Threw(message: string) | Delivered(audio: GeneratedAudio)

  /** Without options every field is at rest and the volume is 0.7; a given
      volume is kept as it is. */
  lemma InitialStateDefaults(volume: Option<real>)
    ensures var s := InitialState(volume);
      && !s.isPlaying && !s.isLoading && s.error.None? && s.currentAudio.None?
      && (volume.None? ==> s.volume == 0.7)
      && (volume.Some? ==> s.volume == volume.value)
  {
  }

  /** `stopAudio`'s updater ends idle without an element whatever came before,
      changes no other field, and a second stop changes nothing. */
  lemma StopEndsIdle(s: PlayerState)
    ensures var t := Apply(s, Stopped);
      && !t.isPlaying && t.currentAudio.None?
      && t.isLoading == s.isLoading && t.error == s.error && t.volume == s.volume
      && Apply(t, Stopped) == t
  {
  }

  /** `setVolume` stores the clamped value and nothing else; setting the same
      volume again changes nothing. */
  lemma SetVolumeClamps(s: PlayerState, v: real)
    ensures var t := Apply(s, VolumeSet(Clamp(v)));
      && 0.0 <= t.volume <= 1.0
      && t.(volume := s.volume) == s
      && Apply(t, VolumeSet(Clamp(t.volume))) == t
  {
  }

  /** Pausing clears `isPlaying`, resuming sets it, and neither touches any
      other field, so resuming after a pause while playing restores the record. */
  lemma PauseResumeFlags(s: PlayerState)
    ensures Apply(s, Paused) == s.(isPlaying := false)
    ensures Apply(s, Resumed) == s.(isPlaying := true)
    ensures s.isPlaying ==> Apply(Apply(s, Paused), Resumed) == s
  {
  }

  /** Every failure updater records its message and stops playback or loading
      as the hook's catch blocks and callbacks do. */
  lemma FailuresRecorded(s: PlayerState, m: string)
    ensures var t := Apply(s, PlayFailed(m)); t.error == Some(m) && !t.isPlaying && !t.isLoading
    ensures var t := Apply(s, DirectFailed(m));
      t.error == Some(m) && !t.isPlaying && !t.isLoading && t.currentAudio.None?
    ensures var t := Apply(s, QueueFailed(m)); t.error == Some(m) && !t.isPlaying
    ensures var t := Apply(s, GenerateFailed(m)); t.error == Some(m) && !t.isLoading && t.isPlaying == s.isPlaying
  {
  }

  /** The callbacks of a load that resolves leave the record playing and no
      longer loading; those of a load that rejects with `m` leave the same
      record as the error callback alone. */
  lemma DirectCallbacks(s: PlayerState, m: string)
    ensures ApplyAll(s, DirectUpdates([OnStart])) == s.(isPlaying := true, isLoading := false)
    ensures ApplyAll(s, DirectUpdates([OnStart, OnStart])) == s.(isPlaying := true, isLoading := false)
    ensures ApplyAll(s, DirectUpdates([OnError(m)])) == Apply(s, DirectFailed(m))
    ensures ApplyAll(s, DirectUpdates([OnStart, OnError(m), OnError(m)])) == Apply(s, DirectFailed(m))
  {
    assert DirectUpdates([OnStart]) == [DirectStarted];
    assert DirectUpdates([OnStart, OnStart]) == [DirectStarted, DirectStarted];
    assert DirectUpdates([OnError(m)]) == [DirectFailed(m)];
    var three := [DirectStarted, DirectFailed(m), DirectFailed(m)];
    assert DirectUpdates([OnStart, OnError(m), OnError(m)]) == three;
    var failed := Apply(s, DirectFailed(m));
    calc {
      ApplyAll(s, three);
      ApplyAll(Apply(s, DirectStarted), three[1..]);
      { assert three[1..] == [DirectFailed(m), DirectFailed(m)]; }
      ApplyAll(failed, [DirectFailed(m)]);
      { assert [DirectFailed(m)][1..] == []; }
      failed;
    }
  }

  /** Once loading has begun, a direct load that settles the way the element
      path does never leaves the hook loading and never throws: a rejection is
      recorded with its message and playback off; a resolution keeps the
      element, without error, and counts as playing unless the automatic
      `play()` was refused, which is recorded instead. */
  lemma DirectSettleOutcome(s: PlayerState, autoPlay: bool, run: Run<MediaElement>, play: Outcome)
    requires run.result.Ok? ==> run.fired == [OnStart] || run.fired == [OnStart, OnStart]
    requires run.result.Err? ==>
      run.fired == [OnError(run.result.message)]
      || run.fired == [OnStart, OnError(run.result.message), OnError(run.result.message)]
    ensures var t := DirectSettle(s, autoPlay, run, play);
      && !t.isLoading
      && t.volume == s.volume
      && (run.result.Err? ==> t.error == Some(run.result.message) && !t.isPlaying && t.currentAudio.None?)
      && (run.result.Ok? && (!autoPlay || play.Works?) ==>
            t.error == s.error && t.isPlaying && t.currentAudio.Some?)
      && (run.result.Ok? && autoPlay && play.Fails? ==>
            t.error == Some(play.message) && !t.isPlaying && t.currentAudio == Some(run.result.value))
  {
    DirectCallbacks(s, if run.result.Err? then run.result.message else "");
  }

  /** Direct `playAudio` never throws and never leaves the hook loading: a
      rejected load is recorded with its message and playback off; a resolved
      one keeps the element, clears any earlier error, and counts as playing
      unless the automatic `play()` was refused, which is recorded instead. */
  lemma DirectPlayOutcome(s: PlayerState, autoPlay: bool, audio: GeneratedAudio,
                          media: MediaOutcome, web: WebAudioEngine, play: Outcome)
    ensures var run := PlayFromBase64(audio, Some(s.volume), false, media, web);
      var t := DirectPlay(s, autoPlay, audio, media, web, play);
      && !t.isLoading
      && t.volume == s.volume
      && (run.result.Err? ==> t.error == Some(run.result.message) && !t.isPlaying && t.currentAudio.None?)
      && (run.result.Ok? && (!autoPlay || play.Works?) ==>
            t.error.None? && t.isPlaying && t.currentAudio.Some?)
      && (run.result.Ok? && autoPlay && play.Fails? ==>
            t.error == Some(play.message) && !t.isPlaying && t.currentAudio == Some(run.result.value))
  {
    HtmlPathCallbacks(audio, Some(s.volume), media, web);
    DirectSettleOutcome(Apply(s, BeginLoad), autoPlay, PlayFromBase64(audio, Some(s.volume), false, media, web), play);
  }

  /** A failed request to the audio route is recorded, loading ends, and
      playback is left as it was. */
  lemma GenerateErrorsRecorded(s: PlayerState, response: Response)
    requires !response.Delivered?
    ensures var m := if response.NotOk? then GenerateFailure else response.message;
      var t := Apply(Apply(s, BeginLoad), GenerateFailed(m));
      t.error == Some(m) && !t.isLoading && t.isPlaying == s.isPlaying && t.currentAudio == s.currentAudio
  {
  }

  /** The hook instance. The queue is created by the first render when
      `useQueue` is set, and never again. */
  class Player {
    var state: PlayerState
    const autoPlay: bool
    const useQueue: bool
    const queue: SequentialQueue.AudioQueue?

    ghost predicate Inv()
      reads this, queue
    {
      && (queue != null <==> useQueue)
      && (queue != null ==> queue.Inv())
    }

    constructor (volume: Option<real>, autoPlay: Option<bool>, useQueue: Option<bool>)
      ensures this.autoPlay == (autoPlay == Some(true)) && this.useQueue == (useQueue == Some(true))
      ensures state == InitialState(volume) && Inv()
      ensures queue != null ==>
        fresh(queue) && queue.Model() == SequentialQueue.Initial && queue.volume == Some(state.volume)
    {
      this.autoPlay := autoPlay == Some(true);
      this.useQueue := useQueue == Some(true);
      var initial := InitialState(volume);
      state := initial;
      if useQueue == Some(true) {
        queue := new SequentialQueue.AudioQueue(Some(initial.volume));
      } else {
        queue := null;
      }
    }

    /** The record after the callbacks the queue fired from position `from` on. */
    method DeliverQueueCallbacks(from: nat)
      requires queue != null && from <= |queue.fired|
      modifies this
      ensures state == ApplyAll(old(state), QueueUpdates(queue.fired[from..]))
    {
      state := ApplyAll(state, QueueUpdates(queue.fired[from..]));
    }

    method PlayAudio(audioData: GeneratedAudio, media: MediaOutcome, web: WebAudioEngine, play: Outcome)
      requires Inv()
      modifies this, queue
      ensures Inv()
      ensures useQueue ==> state == Apply(Apply(old(state), BeginLoad), Enqueued)
      ensures useQueue ==> queue.Model() == SequentialQueue.AfterEnqueue(old(queue.Model()), audioData)
      ensures useQueue ==> queue.settled == old(queue.settled)
      ensures !useQueue ==> state == DirectPlay(old(state), autoPlay, audioData, media, web, play)
    {
      if useQueue && queue != null {
        state := Apply(state, BeginLoad);
        queue.Enqueue(audioData);
        SequentialQueue.EnqueueAppends(old(queue.Model()), audioData);
        state := Apply(state, Enqueued);
      } else {
        var run := PlayFromBase64(audioData, Some(state.volume), false, media, web);
        state := ApplyAll(Apply(state, BeginLoad), DirectUpdates(run.fired));
        match run.result {
          case Err(m) =>
            state := Apply(state, PlayFailed(m));
          case Ok(element) =>
            state := Apply(state, Resolved(element));
            if autoPlay {
              match play {
                case Works => state := state.(currentAudio := Some(element.(paused := false)));
                case Fails(m) => state := Apply(state, PlayFailed(m));
              }
            }
        }
      }
    }

    /** The element of a direct-mode play reached its end. */
    method OnDirectEnded()
      modifies this
      ensures state == Apply(old(state), DirectEnded)
    {
      state := Apply(state, DirectEnded);
    }

    /** An awaited load of the queue settles; the record follows the callbacks
        the queue fires meanwhile. */
    method OnQueueAttemptSettled(item: GeneratedAudio, media: MediaOutcome, web: WebAudioEngine, play: Outcome)
      requires Inv() && queue != null && item in queue.Pending()
      modifies this, queue
      ensures Inv()
      ensures queue.Model() == SequentialQueue.AfterSettle(old(queue.Model()),
        PlayFromBase64(item, queue.volume, false, media, web), play)
      ensures queue.settled == old(queue.settled) + multiset{item}
      ensures state == ApplyAll(old(state), QueueUpdates(queue.fired[|old(queue.fired)|..]))
    {
      var from := |queue.fired|;
      queue.OnAttemptSettled(item, media, web, play);
      DeliverQueueCallbacks(from);
    }

    /** The queue's current item ended. */
    method OnQueueItemEnded()
      requires Inv() && queue != null
      modifies this, queue
      ensures Inv()
      ensures queue.Model() == SequentialQueue.AfterEnded(old(queue.Model()))
      ensures queue.settled == old(queue.settled)
      ensures state == ApplyAll(old(state), QueueUpdates(queue.fired[|old(queue.fired)|..]))
    {
      var from := |queue.fired|;
      queue.OnItemEnded();
      DeliverQueueCallbacks(from);
    }

    method PauseAudio()
      requires Inv()
      modifies this, queue
      ensures Inv()
      ensures useQueue ==> queue.Model() == SequentialQueue.AfterPause(old(queue.Model()))
      ensures useQueue ==> queue.settled == old(queue.settled)
      ensures useQueue ==> state == Apply(old(state), Paused)
      ensures !useQueue ==> state == Apply(old(state), Paused).(currentAudio := PausedElement(old(state.currentAudio)))
    {
      if useQueue && queue != null {
        queue.Pause();
      } else if state.currentAudio.Some? && !state.currentAudio.value.paused {
        state := state.(currentAudio := Some(state.currentAudio.value.(paused := true)));
      }
      state := Apply(state, Paused);
    }

    method ResumeAudio()
      requires Inv()
      modifies this, queue
      ensures Inv()
      ensures useQueue ==> queue.Model() == SequentialQueue.AfterResume(old(queue.Model()))
      ensures useQueue ==> queue.settled == old(queue.settled)
      ensures useQueue ==> state == Apply(old(state), Resumed)
      ensures !useQueue ==> state == Apply(old(state), Resumed).(currentAudio := PlayingElement(old(state.currentAudio)))
    {
      if useQueue && queue != null {
        queue.Resume();
      } else if state.currentAudio.Some? && state.currentAudio.value.paused {
        state := state.(currentAudio := Some(state.currentAudio.value.(paused := false)));
      }
      state := Apply(state, Resumed);
    }

    method StopAudio()
      requires Inv()
      modifies this, queue
      ensures Inv()
      ensures useQueue ==> queue.Model() == SequentialQueue.AfterStop(old(queue.Model()))
      ensures useQueue ==> queue.settled == old(queue.settled)
      ensures state == Apply(old(state), Stopped)
    {
      if useQueue && queue != null {
        queue.Stop();
        SequentialQueue.StopResets(old(queue.Model()));
      }
      // In direct mode the element's `pause()` and rewind are not observable
      // here: elements are values, and `Stopped` drops this one.
      state := Apply(state, Stopped);
    }

    method SetVolume(newVolume: real)
      modifies this
      ensures state == Apply(old(state), VolumeSet(Clamp(newVolume)))
        .(currentAudio := WithVolume(old(state.currentAudio), Clamp(newVolume)))
    {
      var clampedVolume := Clamp(newVolume);
      if state.currentAudio.Some? {
        state := state.(currentAudio := Some(state.currentAudio.value.(volume := clampedVolume)));
      }
      state := Apply(state, VolumeSet(clampedVolume));
    }

    method GenerateAndPlayAudio(response: Response, media: MediaOutcome, web: WebAudioEngine, play: Outcome)
      requires Inv()
      modifies this, queue
      ensures Inv()
      ensures response.NotOk? ==> state == Apply(Apply(old(state), BeginLoad), GenerateFailed(GenerateFailure))
      ensures response.Threw? ==> state == Apply(Apply(old(state), BeginLoad), GenerateFailed(response.message))
      ensures response.Delivered? && !useQueue ==>
        state == DirectPlay(Apply(old(state), BeginLoad), autoPlay, response.audio, media, web, play)
      ensures response.Delivered? && useQueue ==>
        && state == Apply(Apply(Apply(old(state), BeginLoad), BeginLoad), Enqueued)
        && queue.Model() == SequentialQueue.AfterEnqueue(old(queue.Model()), response.audio)
      ensures !response.Delivered? && queue != null ==> queue.Model() == old(queue.Model())
      ensures queue != null ==> queue.settled == old(queue.settled)
    {
      state := Apply(state, BeginLoad);
      match response {
        case NotOk => state := Apply(state, GenerateFailed(GenerateFailure));
        case Threw(m) => state := Apply(state, GenerateFailed(m));
        case Delivered(audio) => PlayAudio(audio, media, web, play);
      }
    }

    /** `queueStatus`: the queue's status in queue mode, nothing otherwise. */
    method QueueStatus() returns (status: Option<SequentialQueue.Status>)
      requires Inv()
      ensures status.Some? <==> useQueue
      ensures status.Some? ==> status.value == SequentialQueue.StatusOf(queue.Model())
    {
      if useQueue && queue != null {
        var st := queue.GetStatus();
        status := Some(st);
      } else {
        status := None;
      }
    }
  }

  /** The element playing, if it was paused. */
  function PlayingElement(current: Option<MediaElement>): Option<MediaElement>
  {
    match current
    case Some(element) => Some(element.(paused := false))
    case None => None
  }

  /** The element with its volume set. */
  function WithVolume(current: Option<MediaElement>, volume: real): Option<MediaElement>
  {
    match current
    case Some(element) => Some(element.(volume := volume))
    case None => None
  }

  /** A queue-mode session driven only through the hook: an item is played,
      playback is stopped while its load is still pending, and that load
      settles afterwards. The late load is still accepted, nothing is left
      pending, and the emptied queue stays empty. */
  method LateSettleAfterStop(item: GeneratedAudio, media: MediaOutcome, web: WebAudioEngine, play: Outcome)
    returns (p: Player)
    ensures p.Inv() && p.queue != null
    ensures p.queue.started == [item] && p.queue.settled == multiset{item}
    ensures p.queue.Pending() == multiset{}
    ensures p.queue.Model().queue == []
  {
    p := new Player(None, None, Some(true));
    assert p.useQueue && p.queue != null && p.queue.Model() == SequentialQueue.Initial;
    p.PlayAudio(item, media, web, play);
    p.StopAudio();
    p.OnQueueAttemptSettled(item, media, web, play);
    assert multiset(p.queue.started) == p.queue.settled;
  }
}

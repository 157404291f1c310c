/** `AudioQueue` of src/lib/audio-utils.ts: a FIFO of narration items played
    one after another. The awaited play of an item and the `ended` event that
    continues the drain are made explicit events. The transitions are stated
    once as functions on a value (`QueueState`), and the class's methods are
    proved to follow them. */
module SequentialQueue {
  import opened Wrappers
  import opened AudioBlob
  import opened Playback

  /** The queue's fields, the callbacks it has fired through its options, and
      the items it has handed to `playAudioFromBase64`, in order. */
  datatype QueueState = QueueState(
    queue: seq<GeneratedAudio>,
    isPlaying: bool,
    currentAudio: Option<MediaElement>,
    fired: seq<Callback>,
    started: seq<GeneratedAudio>)

  /** What `getStatus` reports. */
  datatype Status = Status(isPlaying: bool, queueLength: nat, isPaused: bool)

  /** A new queue: empty, idle, no element. */
  const Initial := QueueState([], false, None, [], [])

  /** An idle queue holds nothing: every item is either handed on or still
      waiting behind one that plays. */
  predicate Valid(s: QueueState) {
    !s.isPlaying ==> s.queue == []
  }

  /** `playNext`: on an empty queue stop and fire `onEnd`; otherwise mark the
      queue playing and take the head. */
  function AfterPlayNext(s: QueueState): QueueState
  {
    if s.queue == [] then s.(isPlaying := false, fired := s.fired + [OnEnd])
    else s.(isPlaying := true, queue := s.queue[1..], started := s.started + [s.queue[0]])
  }

  /** `enqueue`: push at the tail, and start draining only when idle. */
  function AfterEnqueue(s: QueueState, audio: GeneratedAudio): QueueState
  {
    var pushed := s.(queue := s.queue + [audio]);
    if s.isPlaying then pushed else AfterPlayNext(pushed)
  }

  /** The awaited `playAudioFromBase64` of an item settles (after firing the
      callbacks in `run`), and, when it resolved, the awaited `play()` of the
      element has the outcome `play`. Either rejection fires `onError` once
      more from the catch and moves on to the next item. */
  function AfterSettle(s: QueueState, run: Run<MediaElement>, play: Outcome): QueueState
  {
    var t := s.(fired := s.fired + run.fired);
    match run.result
    case Err(m) => AfterPlayNext(t.(fired := t.fired + [OnError(m)]))
    case Ok(element) =>
      match play
      case Works => t.(currentAudio := Some(element.(paused := false)))
      case Fails(m) => AfterPlayNext(t.(currentAudio := Some(element), fired := t.fired + [OnError(m)]))
  }

  /** The `onEnd` the queue passes for each item: playback ends (a media
      element that reaches its end is paused) and the next item is played. */
  function AfterEnded(s: QueueState): QueueState
  {
    AfterPlayNext(s.(currentAudio := PausedElement(s.currentAudio)))
  }

  /** `pause`: pause the current element when it plays. */
  function AfterPause(s: QueueState): QueueState
  {
    if s.currentAudio.Some? && !s.currentAudio.value.paused then
      s.(currentAudio := Some(s.currentAudio.value.(paused := true)))
    else s
  }

  /** `resume`: play the current element when it is paused. */
  function AfterResume(s: QueueState): QueueState
  {
    if s.currentAudio.Some? && s.currentAudio.value.paused then
      s.(currentAudio := Some(s.currentAudio.value.(paused := false)))
    else s
  }

  /** `stop`: drop the waiting items, go idle, pause and forget the element. */
  function AfterStop(s: QueueState): QueueState
  {
    s.(queue := [], isPlaying := false, currentAudio := None)
  }

  /** `getStatus`; `isPaused` is false when there is no element. */
  function StatusOf(s: QueueState): Status
  {
    Status(s.isPlaying, |s.queue|, s.currentAudio.Some? && s.currentAudio.value.paused)
  }

  /** `playNext` takes the head and keeps the order of the rest; on an empty
      queue it goes idle and fires `onEnd`, and nothing else changes. */
  lemma PlayNextTakesHead(s: QueueState)
    ensures var t := AfterPlayNext(s);
      && t.started + t.queue == s.started + s.queue
      && Valid(t)
      && (s.queue != [] ==> t.isPlaying && t.started == s.started + [s.queue[0]] && t.fired == s.fired)
      && (s.queue == [] ==> !t.isPlaying && t.fired == s.fired + [OnEnd] && t.started == s.started)
      && t.currentAudio == s.currentAudio
  {
    if s.queue != [] {
      assert s.queue == [s.queue[0]] + s.queue[1..];
    }
  }

  /** `enqueue` appends at the tail; an idle queue starts the new item at once,
      a playing one leaves it waiting behind the others. */
  lemma EnqueueAppends(s: QueueState, audio: GeneratedAudio)
    requires Valid(s)
    ensures var t := AfterEnqueue(s, audio);
      && Valid(t)
      && t.started + t.queue == s.started + s.queue + [audio]
      && (s.isPlaying ==> t.queue == s.queue + [audio] && t.started == s.started && t.fired == s.fired)
      && (!s.isPlaying ==> t.isPlaying && t.queue == [] && t.started == s.started + [audio])
  {
    PlayNextTakesHead(s.(queue := s.queue + [audio]));
  }

  /** A call or event the queue can receive. */
  datatype Event =
    | Push(audio: GeneratedAudio)
    | Settle(run: Run<MediaElement>, play: Outcome)
    | End
    | PauseCall
    | ResumeCall
    | StopCall

  function Apply(s: QueueState, e: Event): QueueState
  {
    match e
    case Push(audio) => AfterEnqueue(s, audio)
    case Settle(run, play) => AfterSettle(s, run, play)
    case End => AfterEnded(s)
    case PauseCall => AfterPause(s)
    case ResumeCall => AfterResume(s)
    case StopCall => AfterStop(s)
  }

  function ApplyAll(s: QueueState, events: seq<Event>): QueueState
    decreases |events|
  {
    if events == [] then s else ApplyAll(Apply(s, events[0]), events[1..])
  }

  /** The items pushed by a run of events, in order. */
  function Pushed(events: seq<Event>): seq<GeneratedAudio>
  {
    if events == [] then []
    else (if events[0].Push? then [events[0].audio] else []) + Pushed(events[1..])
  }

  predicate NoStop(events: seq<Event>) {
    forall k | 0 <= k < |events| :: !events[k].StopCall?
  }

  /** Every call and event keeps an idle queue empty. */
  lemma EventKeepsValid(s: QueueState, e: Event)
    requires Valid(s)
    ensures Valid(Apply(s, e))
  {
    match e
    case Push(audio) => EnqueueAppends(s, audio);
    case Settle(run, play) =>
      var t := s.(fired := s.fired + run.fired);
      if run.result.Err? {
        PlayNextTakesHead(t.(fired := t.fired + [OnError(run.result.message)]));
      } else if play.Fails? {
        PlayNextTakesHead(t.(currentAudio := Some(run.result.value), fired := t.fired + [OnError(play.message)]));
      }
    case End => PlayNextTakesHead(s.(currentAudio := PausedElement(s.currentAudio)));
    case PauseCall =>
    case ResumeCall =>
    case StopCall =>
  }

  /** One event other than `stop` moves items only from the waiting queue to
      the player, in order, and adds a pushed item at the tail. */
  lemma EventKeepsOrder(s: QueueState, e: Event)
    requires !e.StopCall?
    ensures Apply(s, e).started + Apply(s, e).queue == s.started + s.queue + Pushed([e])
  {
    assert Pushed([e]) == (if e.Push? then [e.audio] else []) + Pushed([]);
    match e
    case Push(audio) =>
      PlayNextTakesHead(s.(queue := s.queue + [audio]));
    case Settle(run, play) =>
      var t := s.(fired := s.fired + run.fired);
      if run.result.Err? {
        PlayNextTakesHead(t.(fired := t.fired + [OnError(run.result.message)]));
      } else if play.Fails? {
        PlayNextTakesHead(t.(currentAudio := Some(run.result.value), fired := t.fired + [OnError(play.message)]));
      }
    case End => PlayNextTakesHead(s.(currentAudio := PausedElement(s.currentAudio)));
    case PauseCall =>
    case ResumeCall =>
  }

  /** FIFO: until the next `stop`, items reach the player in the order they
      were enqueued, after the ones already waiting. */
  lemma {:induction false} FifoOrder(s: QueueState, events: seq<Event>)
    requires NoStop(events)
    decreases |events|
    ensures ApplyAll(s, events).started + ApplyAll(s, events).queue == s.started + s.queue + Pushed(events)
  {
    if events != [] {
      var t := Apply(s, events[0]);
      EventKeepsOrder(s, events[0]);
      assert Pushed(events) == Pushed([events[0]]) + Pushed(events[1..]);
      FifoOrder(t, events[1..]);
    }
  }

  /** Every run of events keeps an idle queue empty. */
  lemma {:induction false} EventsKeepValid(s: QueueState, events: seq<Event>)
    requires Valid(s)
    decreases |events|
    ensures Valid(ApplyAll(s, events))
  {
    if events != [] {
      EventKeepsValid(s, events[0]);
      EventsKeepValid(Apply(s, events[0]), events[1..]);
    }
  }

  /** A settle the queue's catch handles: the load rejected (a blob failure,
      or both engines failed), or the element's `play()` was refused. */
  predicate IsFailure(e: Event) {
    e.Settle? && (e.run.result.Err? || e.play.Fails?)
  }

  /** The error the queue's catch reports for a failing settle. */
  function FailureMessage(e: Event): string
    requires IsFailure(e)
  {
    if e.run.result.Err? then e.run.result.message else e.play.message
  }

  /** What the failing settles of a run report, in order: the callbacks each
      load fired, then the queue's own `onError` with that load's error. */
  function FailureReports(events: seq<Event>): seq<Callback>
  {
    if events == [] then []
    else
      var e := events[0];
      (if IsFailure(e) then e.run.fired + [OnError(FailureMessage(e))] else []) + FailureReports(events[1..])
  }

  /** One failing settle, of any kind, reports its error once more and hands
      on the next waiting item; with nothing waiting it goes idle and fires
      `onEnd`. */
  lemma FailureHandsOn(s: QueueState, e: Event)
    requires IsFailure(e)
    ensures var t := Apply(s, e);
      && (s.queue != [] ==>
            && t.isPlaying && t.queue == s.queue[1..] && t.started == s.started + [s.queue[0]]
            && t.fired == s.fired + e.run.fired + [OnError(FailureMessage(e))])
      && (s.queue == [] ==>
            && !t.isPlaying && t.queue == [] && t.started == s.started
            && t.fired == s.fired + e.run.fired + [OnError(FailureMessage(e))] + [OnEnd])
      && (e.run.result.Err? ==> t.currentAudio == s.currentAudio)
  {
  }

  /** A settle whose load rejected. */
  predicate IsRejection(e: Event) {
    e.Settle? && e.run.result.Err?
  }

  /** A failed item never stalls the drain: with `n` items waiting behind one
      that plays, `n + 1` failing settles of any kind hand every waiting item
      on in order, report each failure (the load's own callbacks, then the
      queue's `onError`), then go idle and fire `onEnd`; when every load was
      rejected, the current element is the one from before. */
  lemma FailuresDrain(s: QueueState, events: seq<Event>)
    requires |events| == |s.queue| + 1
    requires forall k | 0 <= k < |events| :: IsFailure(events[k])
    ensures var t := ApplyAll(s, events);
      && t.queue == []
      && !t.isPlaying
      && t.started == s.started + s.queue
      && t.fired == s.fired + FailureReports(events) + [OnEnd]
      && ((forall k | 0 <= k < |events| :: IsRejection(events[k])) ==> t.currentAudio == s.currentAudio)
  {
    FailuresHandOn(s, events);
    FailuresReported(s, events);
    if forall k | 0 <= k < |events| :: IsRejection(events[k]) {
      RejectionsKeepElement(s, events);
    }
  }

  /** The first event of a run, taken on its own. */
  lemma FirstEvent(s: QueueState, e: Event, rest: seq<Event>)
    ensures ApplyAll(s, [e] + rest) == ApplyAll(Apply(s, e), rest)
  {
    assert ([e] + rest)[1..] == rest;
  }

  /** The report of the first event of a run, taken on its own. */
  lemma FirstReport(e: Event, rest: seq<Event>)
    ensures FailureReports([e] + rest)
      == (if IsFailure(e) then e.run.fired + [OnError(FailureMessage(e))] else []) + FailureReports(rest)
  {
    assert ([e] + rest)[1..] == rest;
  }

  /** The hand-on part of `FailuresDrain` (proved by induction). */
  lemma {:induction false} FailuresHandOn(s: QueueState, events: seq<Event>)
    requires |events| == |s.queue| + 1
    requires forall k | 0 <= k < |events| :: IsFailure(events[k])
    decreases |events|
    ensures var t := ApplyAll(s, events); t.queue == [] && !t.isPlaying && t.started == s.started + s.queue
  {
    var e, rest := events[0], events[1..];
    assert events == [e] + rest;
    FirstEvent(s, e, rest);
    FailureHandsOn(s, e);
    if s.queue != [] {
      var t := Apply(s, e);
      FailuresHandOn(t, rest);
      assert s.queue == [s.queue[0]] + t.queue;
    }
  }

  /** The reporting part of `FailuresDrain` (proved by induction). */
  lemma {:induction false} FailuresReported(s: QueueState, events: seq<Event>)
    requires |events| == |s.queue| + 1
    requires forall k | 0 <= k < |events| :: IsFailure(events[k])
    decreases |events|
    ensures ApplyAll(s, events).fired == s.fired + FailureReports(events) + [OnEnd]
  {
    var e, rest := events[0], events[1..];
    assert events == [e] + rest;
    FirstEvent(s, e, rest);
    FirstReport(e, rest);
    FailureHandsOn(s, e);
    if s.queue != [] {
      FailuresReported(Apply(s, e), rest);
    }
  }

  /** Rejected loads never replace the current element (proved by induction). */
  lemma {:induction false} RejectionsKeepElement(s: QueueState, events: seq<Event>)
    requires forall k | 0 <= k < |events| :: IsRejection(events[k])
    decreases |events|
    ensures ApplyAll(s, events).currentAudio == s.currentAudio
  {
    if events != [] {
      var t := Apply(s, events[0]);
      assert t.currentAudio == s.currentAudio;
      assert ApplyAll(s, events) == ApplyAll(t, events[1..]);
      RejectionsKeepElement(t, events[1..]);
    }
  }

  /** When both engines fail on a waiting item, the queue reports the composed
      error three times (twice from the player, once from its catch) and
      hands on the next item. */
  lemma DoubleFailureHandsOn(s: QueueState, item: GeneratedAudio, volume: Option<real>,
                             code: Option<int>, web: WebAudioEngine)
    requires BlobOf(item).Ok? && (web.context.Fails? || web.decode.Fails?) && s.queue != []
    ensures var run := PlayFromBase64(item, volume, false, MediaError(code), web);
      var t := AfterSettle(s, run, Works);
      && run.result.Err?
      && t.isPlaying && t.queue == s.queue[1..] && t.started == s.started + [s.queue[0]]
      && t.fired == s.fired + [OnStart] + [OnError(run.result.message), OnError(run.result.message), OnError(run.result.message)]
  {
    var run := PlayFromBase64(item, volume, false, MediaError(code), web);
    BothFailuresNamed(item, volume, code, web);
    ReportedThrice(s, run);
  }

  /** A rejected load whose player already reported its error twice. */
  lemma ReportedThrice(s: QueueState, run: Run<MediaElement>)
    requires run.result.Err? && s.queue != []
    requires run.fired == [OnStart, OnError(run.result.message), OnError(run.result.message)]
    ensures var t := AfterSettle(s, run, Works);
      && t.isPlaying && t.queue == s.queue[1..] && t.started == s.started + [s.queue[0]]
      && t.fired == s.fired + [OnStart] + [OnError(run.result.message), OnError(run.result.message), OnError(run.result.message)]
  {
    FailureHandsOn(s, Settle(run, Works));
  }

  /** `stop` leaves nothing queued, nothing playing and nothing paused, whatever
      the state before, and a second `stop` changes nothing. */
  lemma StopResets(s: QueueState)
    ensures StatusOf(AfterStop(s)) == Status(false, 0, false)
    ensures AfterStop(AfterStop(s)) == AfterStop(s)
    ensures Valid(AfterStop(s))
    ensures AfterStop(s).fired == s.fired && AfterStop(s).started == s.started
  {
  }

  /** When the last item ends on its own, the queue goes idle and fires
      `onEnd`, but keeps the ended element, which is paused; so `getStatus`
      then reports `isPaused` as true, unlike after `stop`. */
  lemma DrainEndsPaused(s: QueueState)
    requires s.queue == [] && s.currentAudio.Some?
    ensures StatusOf(AfterEnded(s)) == Status(false, 0, true)
    ensures AfterEnded(s).fired == s.fired + [OnEnd]
  {
  }

  /** `stop` does not cancel an item whose load is still awaited: when it
      resolves afterwards the element is kept and plays, while the status says
      the queue is idle. */
  lemma StopDoesNotCancelPending(s: QueueState, element: MediaElement)
    ensures var t := AfterSettle(AfterStop(s), Run([OnStart], Ok(element)), Works);
      && t.currentAudio == Some(element.(paused := false))
      && StatusOf(t) == Status(false, 0, false)
  {
  }

  /** `pause` then `resume` plays the element again; on a paused or absent
      element `pause` changes nothing. */
  lemma PauseResume(s: QueueState)
    ensures s.currentAudio.Some? && !s.currentAudio.value.paused ==> AfterResume(AfterPause(s)) == s
    ensures s.currentAudio.None? || s.currentAudio.value.paused ==> AfterPause(s) == s
    ensures StatusOf(AfterPause(s)).isPaused <==> s.currentAudio.Some?
  {
  }

  /** Settling a pending load keeps the settled loads among those handed on. */
  lemma SettleOne(started: seq<GeneratedAudio>, settled: multiset<GeneratedAudio>, item: GeneratedAudio)
    requires settled <= multiset(started) && item in multiset(started) - settled
    ensures settled + multiset{item} <= multiset(started)
  {
  }

  /** The queue object. Several loads can be awaited at once (after a `stop`,
      say), so the caller chooses which of the pending ones settles; an
      `ended` event is taken to come from the current element. */
  class AudioQueue {
    var queue: seq<GeneratedAudio>
    var isPlaying: bool
    var currentAudio: Option<MediaElement>
    /** The volume the queue was created with, passed to every item. */
    const volume: Option<real>
    /** The calls made so far to the `onStart`, `onEnd` and `onError` options. */
    var fired: seq<Callback>
    ghost var started: seq<GeneratedAudio>
    /** The items whose load has settled; the others in `started` are pending. */
    ghost var settled: multiset<GeneratedAudio>

    ghost function Model(): QueueState
      reads this
    {
      QueueState(queue, isPlaying, currentAudio, fired, started)
    }

    ghost predicate Inv()
      reads this
    {
      Valid(Model()) && settled <= multiset(started)
    }

    /** The items handed on whose load is still awaited. */
    ghost function Pending(): multiset<GeneratedAudio>
      reads this
    {
      multiset(started) - settled
    }

    constructor (volume: Option<real>)
      ensures Model() == Initial && Inv() && this.volume == volume
    {
      this.volume := volume;
      queue := [];
      isPlaying := false;
      currentAudio := None;
      fired := [];
      started := [];
      settled := multiset{};
    }

    method PlayNext()
      modifies this
      ensures Model() == AfterPlayNext(old(Model()))
      ensures settled == old(settled) && multiset(old(started)) <= multiset(started)
    {
      if |queue| == 0 {
        isPlaying := false;
        fired := fired + [OnEnd];
        return;
      }
      isPlaying := true;
      var next := queue[0];
      queue := queue[1..];
      started := started + [next];
    }

    method Enqueue(audioData: GeneratedAudio)
      requires Inv()
      modifies this
      ensures Model() == AfterEnqueue(old(Model()), audioData) && Inv()
      ensures settled == old(settled)
    {
      queue := queue + [audioData];
      if !isPlaying {
        PlayNext();
      }
      EnqueueAppends(old(Model()), audioData);
    }

    /** The load of `item` settles as the two engines decide, then `play()`
        of the resolved element has the outcome `play`. */
    method OnAttemptSettled(item: GeneratedAudio, media: MediaOutcome, web: WebAudioEngine, play: Outcome)
      requires Inv() && item in Pending()
      modifies this
      ensures settled == old(settled) + multiset{item}
      ensures Model() == AfterSettle(old(Model()), PlayFromBase64(item, volume, false, media, web), play)
      ensures Inv()
    {
      var run := PlayFromBase64(item, volume, false, media, web);
      SettleRun(item, run, play);
    }

    /** The settling of a pending load, whatever callbacks it fired and
        however it settled. */
    method SettleRun(item: GeneratedAudio, run: Run<MediaElement>, play: Outcome)
      requires Inv() && item in Pending()
      modifies this
      ensures settled == old(settled) + multiset{item}
      ensures Model() == AfterSettle(old(Model()), run, play)
      ensures Inv()
    {
      SettleOne(started, settled, item);
      settled := settled + multiset{item};
      UpdateOnSettle(run, play);
    }

    /** The fields after a load settles; handed-on items are only added. */
    method UpdateOnSettle(run: Run<MediaElement>, play: Outcome)
      modifies this
      ensures Model() == AfterSettle(old(Model()), run, play)
      ensures Valid(old(Model())) ==> Valid(Model())
      ensures settled == old(settled) && multiset(old(started)) <= multiset(started)
    {
      fired := fired + run.fired;
      if run.result.Err? {
        fired := fired + [OnError(run.result.message)];
        PlayNext();
      } else {
        currentAudio := Some(run.result.value);
        if play.Works? {
          currentAudio := Some(run.result.value.(paused := false));
        } else {
          fired := fired + [OnError(play.message)];
          PlayNext();
        }
      }
      if Valid(old(Model())) {
        EventKeepsValid(old(Model()), Settle(run, play));
      }
    }

    method OnItemEnded()
      requires Inv()
      modifies this
      ensures Model() == AfterEnded(old(Model())) && Inv()
      ensures settled == old(settled)
    {
      if currentAudio.Some? {
        currentAudio := Some(currentAudio.value.(paused := true));
      }
      PlayNext();
      EventKeepsValid(old(Model()), End);
    }

    method Pause()
      modifies this
      ensures Model() == AfterPause(old(Model()))
      ensures settled == old(settled)
    {
      if currentAudio.Some? && !currentAudio.value.paused {
        currentAudio := Some(currentAudio.value.(paused := true));
      }
    }

    method Resume()
      modifies this
      ensures Model() == AfterResume(old(Model()))
      ensures settled == old(settled)
    {
      if currentAudio.Some? && currentAudio.value.paused {
        currentAudio := Some(currentAudio.value.(paused := false));
      }
    }

    method Stop()
      requires Inv()
      modifies this
      ensures Model() == AfterStop(old(Model())) && Inv()
      ensures settled == old(settled)
    {
      queue := [];
      isPlaying := false;
      if currentAudio.Some? {
        // The element's `pause()` is not observable here: elements are
        // values, and the queue drops this one.
        currentAudio := None;
      }
    }

    method GetStatus() returns (status: Status)
      ensures status == StatusOf(Model())
      ensures status.queueLength == |queue| && (status.isPaused ==> currentAudio.Some?)
    {
      status := Status(isPlaying, |queue|, currentAudio.Some? && currentAudio.value.paused);
    }
  }
}

/** The two playback engines of src/lib/audio-utils.ts, `playAudioWithWebAudioAPI`
    and `playAudioFromBase64`, with each browser step reduced to the outcome it
    has: the callbacks they fire, in order, and how their promise settles. */
module Playback {
  import opened Wrappers
  import opened JsText
  import opened AudioBlob

  /** `Math.max(0, Math.min(1, v))`. */
  function Clamp(v: real): (r: real)
    ensures 0.0 <= r <= 1.0
    ensures 0.0 <= v <= 1.0 ==> r == v
    ensures v < 0.0 ==> r == 0.0
    ensures 1.0 < v ==> r == 1.0
  {
    if v < 0.0 then 0.0 else if v > 1.0 then 1.0 else v
  }

  /** Clamping twice is clamping once. */
  lemma ClampIdempotent(v: real)
    ensures Clamp(Clamp(v)) == Clamp(v)
  {
  }

  /** The volume an engine ends up with: a given volume is clamped, an absent
      one leaves the engine's own level untouched. */
  function ApplyVolume(volume: Option<real>, current: real): (r: real)
    ensures volume.Some? ==> 0.0 <= r <= 1.0 && r == Clamp(volume.value)
    ensures volume.None? ==> r == current
  {
    match volume
    case None => current
    case Some(v) => Clamp(v)
  }

  /** `getAudioErrorMessage`: the text for an HTMLMediaElement error code. */
  function GetAudioErrorMessage(code: int): string
  {
    if code == 1 then "MEDIA_ERR_ABORTED - Playback aborted"
    else if code == 2 then "MEDIA_ERR_NETWORK - Network error"
    else if code == 3 then "MEDIA_ERR_DECODE - Decode error"
    else if code == 4 then "MEDIA_ERR_SRC_NOT_SUPPORTED - Source not supported"
    else "Unknown error"
  }

  /** Every code outside the four media error codes, and only those, reads
      "Unknown error". */
  lemma UnknownOnlyOutsideCodes(code: int)
    ensures GetAudioErrorMessage(code) == "Unknown error" <==> !(1 <= code <= 4)
  {
    assert 1 <= code <= 4 ==> |GetAudioErrorMessage(code)| > |"Unknown error"|;
  }

  /** The four media error codes get four different texts. */
  lemma ErrorMessagesDistinct(a: int, b: int)
    requires 1 <= a <= 4 && 1 <= b <= 4 && a != b
    ensures GetAudioErrorMessage(a) != GetAudioErrorMessage(b)
  {
    assert GetAudioErrorMessage(a)[10] != GetAudioErrorMessage(b)[10];
  }

  /** A call of one of the callbacks the caller passes in `options`. */
  datatype Callback = OnStart | OnEnd | OnError(message: string)

  /** How one browser step turns out: it works, or it throws an `Error`. */
  datatype Outcome = Works | Fails(message: string)

  /** The Web Audio steps that can throw: creating the `AudioContext` and
      `decodeAudioData`. */
  datatype WebAudioEngine = WebAudioEngine(context: Outcome, decode: Outcome)

  /** What an `HTMLAudioElement` does after `load()`: it reaches `canplay`, or
      it raises `error`, whose `error.code` may be absent (`null`). */
  datatype MediaOutcome = CanPlay | MediaError(code: Option<int>)

  /** The parts of an `HTMLAudioElement` the core reads or writes. */
  datatype MediaElement = MediaElement(hasSource: bool, paused: bool, volume: real, currentTime: real)

  /** The element paused, if there is one. */
  function PausedElement(current: Option<MediaElement>): Option<MediaElement>
  {
    match current
    case Some(element) => Some(element.(paused := true))
    case None => None
  }

  /** `new Audio()`: no source, paused, full volume, at the start. */
  const FreshAudio := MediaElement(false, true, 1.0, 0.0)

  /** The callbacks fired before a play function's promise settles, and how it
      settles. A Web Audio run resolves with the gain it set. */
  datatype Run<T> = Run(fired: seq<Callback>, result: Result<T>)

  /** `playAudioWithWebAudioAPI`: create the context, build the blob, decode,
      set the gain, fire `onStart` and start. Whatever throws is passed to
      `onError` and rethrown. */
  function PlayWithWebAudio(audio: GeneratedAudio, volume: Option<real>, engine: WebAudioEngine): Run<real>
  {
    if engine.context.Fails? then
      Run([OnError(engine.context.message)], Err(engine.context.message))
    else if BlobOf(audio).Err? then
      Run([OnError(BlobOf(audio).message)], Err(BlobOf(audio).message))
    else if engine.decode.Fails? then
      Run([OnError(engine.decode.message)], Err(engine.decode.message))
    else
      Run([OnStart], Ok(ApplyVolume(volume, 1.0)))
  }

  /** Web Audio plays exactly when every step works; it then fires `onStart`
      alone, with a gain that is the clamped volume or the default 1; it
      otherwise fires `onError` alone, with the very error it rejects with. */
  lemma WebAudioOutcome(audio: GeneratedAudio, volume: Option<real>, engine: WebAudioEngine)
    ensures var run := PlayWithWebAudio(audio, volume, engine);
      && (run.result.Ok? <==> engine.context.Works? && BlobOf(audio).Ok? && engine.decode.Works?)
      && (run.result.Ok? ==> run.fired == [OnStart])
      && (run.result.Ok? && volume.Some? ==> run.result.value == Clamp(volume.value) && 0.0 <= run.result.value <= 1.0)
      && (run.result.Ok? && volume.None? ==> run.result.value == 1.0)
      && (run.result.Err? ==> run.fired == [OnError(run.result.message)])
  {
  }

  /** The text of the error raised when both engines fail. */
  function BothFailed(code: int, webMessage: string): string
  {
    "Both HTML Audio and Web Audio API failed. HTML Audio: " + GetAudioErrorMessage(code)
      + ", Web Audio: " + webMessage
  }

  /** The double-failure text contains the element's error text and the Web
      Audio message. */
  lemma BothFailedNamesBoth(code: int, webMessage: string)
    ensures Contains(BothFailed(code, webMessage), GetAudioErrorMessage(code))
    ensures Contains(BothFailed(code, webMessage), webMessage)
  {
    var head := "Both HTML Audio and Web Audio API failed. HTML Audio: ";
    var html := GetAudioErrorMessage(code);
    var m := BothFailed(code, webMessage);
    assert m == head + html + ", Web Audio: " + webMessage;
    assert OccursAt(m, html, |head|) by {
      assert m[|head|..|head| + |html|] == html;
    }
    var k := |m| - |webMessage|;
    assert OccursAt(m, webMessage, k) by {
      assert m[k..k + |webMessage|] == webMessage;
    }
  }

  /** `audio.error?.code || 0`. */
  function ErrorCode(code: Option<int>): int
  {
    match code
    case None => 0
    case Some(c) => c
  }

  /** `playAudioFromBase64`. Forced Web Audio plays there and resolves with a
      fresh element. Otherwise the blob is built (a failure fires `onError` and
      rejects), an element with the clamped volume is loaded (`loadstart` fires
      `onStart`), and `canplay` resolves with it; on `error` Web Audio is tried
      with `onError` wrapped so that a second failure is reported, both by the
      wrapper and by the catch around the fallback, as one that names both. */
  function PlayFromBase64(audio: GeneratedAudio, volume: Option<real>, forceWebAudio: bool,
                          media: MediaOutcome, web: WebAudioEngine): Run<MediaElement>
  {
    if forceWebAudio then
      var run := PlayWithWebAudio(audio, volume, web);
      Run(run.fired, if run.result.Ok? then Ok(FreshAudio) else Err(run.result.message))
    else if BlobOf(audio).Err? then
      Run([OnError(BlobOf(audio).message)], Err(BlobOf(audio).message))
    else match media
      case CanPlay =>
        Run([OnStart], Ok(FreshAudio.(hasSource := true, volume := ApplyVolume(volume, 1.0))))
      case MediaError(code) =>
        var fallback := PlayWithWebAudio(audio, volume, web);
        if fallback.result.Ok? then
          Run([OnStart] + fallback.fired, Ok(FreshAudio))
        else
          var final := BothFailed(ErrorCode(code), fallback.result.message);
          Run([OnStart, OnError(final), OnError(final)], Err(final))
  }

  /** An element that reaches `canplay` carries the blob and a volume that is
      the clamped option, or the default 1 when none is given. */
  lemma HtmlVolumeClamped(audio: GeneratedAudio, volume: Option<real>, web: WebAudioEngine)
    ensures var run := PlayFromBase64(audio, volume, false, CanPlay, web);
      run.result.Ok? ==>
        && run.result.value.hasSource
        && run.result.value.volume == ApplyVolume(volume, 1.0)
        && (volume.Some? ==> 0.0 <= run.result.value.volume <= 1.0)
        && (volume.None? ==> run.result.value.volume == 1.0)
  {
  }

  /** When the element fails but Web Audio plays, the promise resolves with a
      fresh element, `onStart` has fired (once per engine) and `onError` never. */
  lemma FallbackRecovers(audio: GeneratedAudio, volume: Option<real>, code: Option<int>, web: WebAudioEngine)
    requires BlobOf(audio).Ok? && web.context.Works? && web.decode.Works?
    ensures PlayFromBase64(audio, volume, false, MediaError(code), web) == Run([OnStart, OnStart], Ok(FreshAudio))
  {
  }

  /** The message of a double failure names the element's error text and the
      Web Audio message, and `onError` receives it twice. */
  lemma BothFailuresNamed(audio: GeneratedAudio, volume: Option<real>, code: Option<int>, web: WebAudioEngine)
    requires BlobOf(audio).Ok? && (web.context.Fails? || web.decode.Fails?)
    ensures var run := PlayFromBase64(audio, volume, false, MediaError(code), web);
      var webMessage := if web.context.Fails? then web.context.message else web.decode.message;
      && run.result.Err?
      && Contains(run.result.message, GetAudioErrorMessage(ErrorCode(code)))
      && Contains(run.result.message, webMessage)
      && run.fired == [OnStart, OnError(run.result.message), OnError(run.result.message)]
  {
    var webMessage := if web.context.Fails? then web.context.message else web.decode.message;
    BothFailedNamesBoth(ErrorCode(code), webMessage);
  }

  /** The callbacks the element path fires before it settles: `onStart` once
      or (after a fallback) twice when it resolves; when it rejects, `onError`
      alone for a blob failure or, after `onStart`, twice for a double failure. */
  lemma HtmlPathCallbacks(audio: GeneratedAudio, volume: Option<real>, media: MediaOutcome, web: WebAudioEngine)
    ensures var run := PlayFromBase64(audio, volume, false, media, web);
      && (run.result.Ok? ==> run.fired == [OnStart] || run.fired == [OnStart, OnStart])
      && (run.result.Err? ==>
           || run.fired == [OnError(run.result.message)]
           || run.fired == [OnStart, OnError(run.result.message), OnError(run.result.message)])
  {
  }

  /** Whenever playback rejects, the last callback fired is `onError` with the
      rejected error, so a caller that only listens to `onError` still learns
      of every failure. */
  lemma RejectionReported(audio: GeneratedAudio, volume: Option<real>, forceWebAudio: bool,
                          media: MediaOutcome, web: WebAudioEngine)
    ensures var run := PlayFromBase64(audio, volume, forceWebAudio, media, web);
      run.result.Err? ==> |run.fired| > 0 && run.fired[|run.fired| - 1] == OnError(run.result.message)
  {
  }

  /** A blob that cannot be built is reported before any engine is touched,
      with the blob error's own message. */
  lemma BlobFailureFirst(audio: GeneratedAudio, volume: Option<real>, media: MediaOutcome, web: WebAudioEngine)
    requires BlobOf(audio).Err?
    ensures PlayFromBase64(audio, volume, false, media, web)
      == Run([OnError(BlobOf(audio).message)], Err(BlobOf(audio).message))
    ensures BlobErrorPrefix <= BlobOf(audio).message
  {
  }
}

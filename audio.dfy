/** The audio lifecycle behind the orb: the shared audio element, the
    audio context with its analyser, the media-source and gain nodes, and
    the track the orb plays. The Web Audio objects are modelled by what the
    engine can observe of them: whether they exist, whether the context is
    running, whether the element is paused and looping, and which source it
    plays. What the platform decides (whether a context can be built,
    whether `resume`, `play` and `suspend` succeed) is a `Platform`
    parameter. */
module Audio {
  import Numeric

  datatype Option<T> = None | Some(value: T)

  datatype ContextState = Running | Suspended

  /** The `HTMLAudioElement`: its source, `paused` and `loop`. */
  datatype Element = Element(src: string, paused: bool, looping: bool)

  /** The gain node's schedule: left at 1, or ramped from 0 to 1 over a second. */
  datatype Gain = Unity | FadeIn

  /** `audioCtx` (with its analyser), `audioEl`, the `mediaNode`/`gainNode`
      pair, and whether `floatFreqDb` exists. */
  datatype AudioState = AudioState(
    context: Option<ContextState>,
    element: Option<Element>,
    gain: Option<Gain>,
    spectrumLive: bool)

  /** The platform's answers: whether `AudioContext` (or its webkit
      variant) exists, whether a new context starts running, and whether
      `resume`, `play` and `suspend` succeed (a failure is swallowed). */
  datatype Platform = Platform(
    hasAudioContext: bool,
    startsRunning: bool,
    resumeSucceeds: bool,
    playSucceeds: bool,
    suspendSucceeds: bool)

  /** No audio object exists before the first press. */
  const Initial: AudioState := AudioState(None, None, None, false)

  /** The references always go together: the graph and the spectrum buffer
      exist only once a context does, the graph is built on an element, and
      nothing plays before a context exists. */
  predicate Coherent(s: AudioState)
  {
    && (s.gain.Some? ==> s.context.Some? && s.element.Some?)
    && (s.spectrumLive <==> s.context.Some?)
    && (s.context.Some? ==> s.element.Some?)
    && (s.context.None? && s.element.Some? ==> s.element.value.paused)
  }

  /** `ensureAudioElement(src)`: an element is created (with source
      `src || ''`) only when there is none, and a non-empty source replaces
      the current one. The empty string stands for an absent argument. */
  function EnsureAudioElement(el: Option<Element>, src: string): (e: Element)
    ensures src != "" ==> e.src == src
    ensures src == "" && el.Some? ==> e == el.value
    ensures el.Some? ==> e.paused == el.value.paused && e.looping == el.value.looping
    ensures el.None? ==> e.paused && !e.looping && e.src == src
  {
    var current := if el.None? then Element(src, true, false) else el.value;
    if src != "" then current.(src := src) else current
  }

  /** `audioEl.play()` when it succeeds; a rejected promise changes nothing. */
  function Play(p: Platform, e: Element): (r: Element)
    ensures r.src == e.src && r.looping == e.looping
    ensures r.paused <==> e.paused && !p.playSucceeds
  {
    if p.playSucceeds then e.(paused := false) else e
  }

  /** `startAudio(streamSrc)`. With a context it resumes it, makes sure of
      the element, plays it if paused and schedules a fade-in when the gain
      node exists. Without one it gives up when the platform has no audio
      context; otherwise it builds the context and analyser, the element,
      the media graph if none exists yet, the spectrum buffer, and sets the
      element looping and plays it, leaving the gain at 1. */
  function StartAudio(p: Platform, s: AudioState, streamSrc: string): (r: AudioState)
  {
    if s.context.Some? then
      var context := if s.context.value == Suspended && p.resumeSucceeds then Running else s.context.value;
      var e := EnsureAudioElement(s.element, streamSrc);
      var played := if e.paused then Play(p, e) else e;
      var gain := if s.gain.Some? then Some(FadeIn) else s.gain;
      s.(context := Some(context), element := Some(played), gain := gain)
    else if !p.hasAudioContext then
      s
    else
      var context := if p.startsRunning then Running else Suspended;
      var e := EnsureAudioElement(s.element, streamSrc);
      var gain := if s.gain.None? then Some(Unity) else s.gain;
      AudioState(Some(context), Some(Play(p, e.(looping := true))), gain, true)
  }

  /** `stopAudio`: pause the element and suspend a running context, keeping
      every reference for a fast resume. */
  function StopAudio(p: Platform, s: AudioState): (r: AudioState)
  {
    var element := if s.element.Some? then Some(s.element.value.(paused := true)) else None;
    var context := if s.context == Some(Running) && p.suspendSucceeds then Some(Suspended) else s.context;
    s.(element := element, context := context)
  }

  /** Starting the audio: without a context and without platform support
      nothing changes; the first start builds the whole graph once, with
      the gain left at 1 and the element looping on the given source; a
      later start keeps the graph it finds and fades it in. */
  lemma StartAudioEffect(p: Platform, s: AudioState, streamSrc: string)
    requires Coherent(s)
    ensures var r := StartAudio(p, s, streamSrc);
      && (s.context.None? && !p.hasAudioContext ==> r == s)
      && (s.context.None? && p.hasAudioContext ==>
            && r.context == Some(if p.startsRunning then Running else Suspended)
            && r.gain == Some(Unity) && r.spectrumLive
            && r.element.Some? && r.element.value.looping
            && r.element.value.paused == !p.playSucceeds
            && (streamSrc != "" ==> r.element.value.src == streamSrc))
      && (s.context.Some? ==>
            && r.gain == (if s.gain.Some? then Some(FadeIn) else None)
            && r.spectrumLive == s.spectrumLive
            && r.element.Some?
            && r.element.value.looping == s.element.value.looping
            && (streamSrc != "" ==> r.element.value.src == streamSrc)
            && (streamSrc == "" ==> r.element.value.src == s.element.value.src)
            && r.context.Some?
            && (s.context.value == Running ==> r.context.value == Running))
  {
  }

  /** Starting and stopping keep the references coherent, and keep the
      element once it exists. */
  lemma LifecyclePreservesCoherence(p: Platform, s: AudioState, streamSrc: string)
    requires Coherent(s) && s.element.Some?
    ensures Coherent(StartAudio(p, s, streamSrc))
    ensures Coherent(StopAudio(p, s))
    ensures StartAudio(p, s, streamSrc).element.Some?
    ensures StopAudio(p, s).element.Some?
  {
  }

  /** Stopping only pauses: the context, graph, spectrum buffer and source
      survive, the element (if any) is paused, and only a running context
      can become suspended. Stopping twice is stopping once. */
  lemma StopAudioKeepsReferences(p: Platform, s: AudioState)
    ensures var r := StopAudio(p, s);
      && r.context.Some? == s.context.Some?
      && r.gain == s.gain && r.spectrumLive == s.spectrumLive
      && r.element.Some? == s.element.Some?
      && (s.element.Some? ==> r.element.value.paused && r.element.value.src == s.element.value.src
                              && r.element.value.looping == s.element.value.looping)
      && (r.context != s.context ==> s.context == Some(Running) && r.context == Some(Suspended))
    ensures StopAudio(p, StopAudio(p, s)) == StopAudio(p, s)
  {
  }

  /** Stopping and starting again plays the same graph from the same element
      with a fresh fade-in, once the graph has been built. */
  lemma RestartResumes(p: Platform, s: AudioState)
    requires Coherent(s) && s.gain.Some? && p.playSucceeds
    ensures var r := StartAudio(p, StopAudio(p, s), "");
      && r.gain == Some(FadeIn)
      && r.element.Some? && !r.element.value.paused
      && r.element.value.src == s.element.value.src
      && r.context.Some?
  {
  }

  // ---------------------------------------------------------------- tracks

  /** The tracks the orb picks from. */
  const Tracks: seq<string> := [
    "https://api.audius.co/v1/tracks/17Rbb65",
    "https://api.audius.co/v1/tracks/aAqxE3z",
    "https://api.audius.co/v1/tracks/daqwaoJ",
    "https://api.audius.co/v1/tracks/oR4wmVa",
    "https://api.audius.co/v1/tracks/83XyGxW",
    "https://api.audius.co/v1/tracks/mQj6a5Q",
    "https://api.audius.co/v1/tracks/lpyrbGZ",
    "https://api.audius.co/v1/tracks/J83vpaz",
    "https://api.audius.co/v1/tracks/VE6wl7W",
    "https://api.audius.co/v1/tracks/wkAp0qr",
    "https://api.audius.co/v1/tracks/OovgEBR"
  ]

  /** `pickRandomTrack` for a given `Math.random()` value: always an index
      of the list, whatever the value, and `floor(random * 11)` for a value
      in [0, 1). */
  function PickRandomTrack(random: real): (i: int)
    ensures 0 <= i < |Tracks|
    ensures 0.0 <= random < 1.0 ==> i == (random * |Tracks| as real).Floor
  {
    var idx := (random * |Tracks| as real).Floor;
    Numeric.IntMax(0, Numeric.IntMin(|Tracks| - 1, idx))
  }

  /** Every track owns an eleventh of [0, 1): a uniform `Math.random()`
      picks each with the same chance. */
  lemma PickRandomTrackUniform(random: real, k: int)
    requires 0.0 <= random < 1.0 && 0 <= k < |Tracks|
    ensures PickRandomTrack(random) == k <==> k as real / 11.0 <= random < (k + 1) as real / 11.0
  {
    var u := random * 11.0;
    assert u.Floor as real <= u < u.Floor as real + 1.0;
    if PickRandomTrack(random) == k {
      assert k as real <= u < k as real + 1.0;
    }
    if k as real / 11.0 <= random < (k + 1) as real / 11.0 {
      assert k as real <= u < k as real + 1.0;
    }
  }

  /** The selection `playRandomTrack` keeps: once a track is chosen it is
      kept for the rest of the session; until then a random one is chosen. */
  function SelectTrack(selected: Option<int>, random: real): (i: int)
    requires selected.Some? ==> 0 <= selected.value < |Tracks|
    ensures 0 <= i < |Tracks|
    ensures selected.Some? ==> i == selected.value
    ensures selected.None? ==> i == PickRandomTrack(random)
  {
    if selected.Some? then selected.value else PickRandomTrack(random)
  }

  /** The stream URL of the selected track. */
  function StreamUrl(i: int): (url: string)
    requires 0 <= i < |Tracks|
    ensures url == Tracks[i] + "/stream"
    ensures url != ""
  {
    Tracks[i] + "/stream"
  }

  /** `playRandomTrack`: choose (or keep) the track, then start the audio on
      its stream. Returns the selection and the new audio state. */
  function PlayRandomTrack(p: Platform, s: AudioState, selected: Option<int>, random: real): (r: (int, AudioState))
    requires selected.Some? ==> 0 <= selected.value < |Tracks|
    ensures 0 <= r.0 < |Tracks|
    ensures selected.Some? ==> r.0 == selected.value
    ensures selected.None? ==> r.0 == PickRandomTrack(random)
    ensures r.1 == StartAudio(p, s, StreamUrl(r.0))
  {
    var i := SelectTrack(selected, random);
    (i, StartAudio(p, s, StreamUrl(i)))
  }

  /** Playing a random track twice plays the same stream: after the first
      call the selection is fixed, so every later press replays it. */
  lemma SelectionIsSticky(p: Platform, s: AudioState, selected: Option<int>, r1: real, r2: real, t: AudioState)
    requires selected.Some? ==> 0 <= selected.value < |Tracks|
    ensures var first := PlayRandomTrack(p, s, selected, r1);
      var second := PlayRandomTrack(p, t, Some(first.0), r2);
      second.0 == first.0
  {
  }
}

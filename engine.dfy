/** The orb engine: the mutable state the component's effect closes over,
    the pointer handlers, the per-frame step (`drawCircle`), the ticker
    that feeds it the analyser's spectrum, the resize handler and the
    one-shot ready signal. */
module Engine {
  import opened Numeric
  import opened Transcendental
  import opened Spectrum
  import opened Geometry
  import Interaction
  import Audio
  import Color

  /** What a frame draws: the ring's outline while music plays, a white
      disc otherwise, both along the points' radii. */
  datatype Drawing = Outline(color: int, lineWidth: real) | Disc(fill: int)

  const DiscFill: int := 0xFF_FFFF

  /** The style of the frame's shape. While the envelopes keep their ranges
      the outline has a 24-bit colour and a width in [1, 40]. */
  function Render(isRing: bool, phaseOffset: real, hiEnv: real, kickEnv: real, hoverValue: real): (d: Drawing)
    ensures d.Outline? <==> isRing
    ensures !isRing ==> d == Disc(DiscFill)
    ensures d.Outline? && 0.0 <= phaseOffset && 0.0 <= hiEnv && 0.0 <= kickEnv && 0.0 <= hoverValue <= 1.0 ==>
      0 <= d.color <= 0xFF_FFFF && 1.0 <= d.lineWidth <= 40.0
  {
    if isRing then
      var color := Color.StrokeColor(phaseOffset, hiEnv, kickEnv, hoverValue);
      var width := Color.LineWidth(kickEnv, hiEnv);
      if 0.0 <= phaseOffset && 0.0 <= hiEnv && 0.0 <= kickEnv && 0.0 <= hoverValue <= 1.0 then
        Color.StrokeColorInGamut(phaseOffset, hiEnv, kickEnv, hoverValue);
        Outline(color, width)
      else
        Outline(color, width)
    else
      Disc(DiscFill)
  }

  /** The audio offset point `i` asks for: the envelope of the bin the
      spinning pattern maps to it while music plays, nothing otherwise. */
  function OffsetTarget(m: Maths, vis: Audio.Option<seq<real>>, i: int, phaseOffset: real, edgeRadius: real): real
    requires vis.Some? ==> Bins(vis.value)
    requires 0 <= i && 0.0 <= phaseOffset
  {
    if vis.Some? then TargetOffset(m, vis.value[OffsetBin(i, phaseOffset)], edgeRadius) else 0.0
  }

  /** A silent ring's offsets are gone, and a playing ring's are bounded by
      28% of the edge radius. */
  lemma OffsetTargetBounds(m: Maths, vis: Audio.Option<seq<real>>, i: int, phaseOffset: real, edgeRadius: real)
    requires vis.Some? ==> Bins(vis.value) && InUnit(vis.value)
    requires 0 <= i && 0.0 <= phaseOffset
    requires Lawful(m) && 0.0 <= edgeRadius
    ensures vis.None? ==> OffsetTarget(m, vis, i, phaseOffset, edgeRadius) == 0.0
    ensures 0.0 <= OffsetTarget(m, vis, i, phaseOffset, edgeRadius) <= edgeRadius * AudioMaxOffsetRatio
  {
    if vis.Some? {
      TargetOffsetBounds(m, vis.value[OffsetBin(i, phaseOffset)], edgeRadius);
    }
  }

  /** The radius point `i`'s spring pulls towards: its smoothed target,
      plus its audio offset while music plays. */
  function SpringTarget(vis: Audio.Option<seq<real>>, ringTarget: real, offset: real): real
  {
    if vis.Some? then ringTarget + offset else ringTarget
  }

  /** Every spring target lies between 90% and 128% of the edge radius; a
      silent ring whose pointer is away targets the plain circle, its
      offsets gone. */
  lemma {:induction false} SpringTargetsBounds(m: Maths, vis: Audio.Option<seq<real>>, phaseOffset: real,
                                               pointerX: real, pointerY: real, centerX: real, centerY: real,
                                               edgeRadius: real, pointerActive: bool, offsets: seq<real>, i: int)
    requires vis.Some? ==> Bins(vis.value) && InUnit(vis.value)
    requires Lawful(m) && 0.0 <= edgeRadius && 0.0 <= phaseOffset
    requires |offsets| == NumPoints && 0 <= i < NumPoints
    ensures var o := Ease(offsets[i], OffsetTarget(m, vis, i, phaseOffset, edgeRadius), RingSmoothing);
      var t := SpringTarget(vis, RingTargets(m, pointerX, pointerY, centerX, centerY, edgeRadius, pointerActive)[i], o);
      && 0.0 <= o <= edgeRadius * AudioMaxOffsetRatio
      && 0.9 * edgeRadius <= t <= (1.0 + AudioMaxOffsetRatio) * edgeRadius
      && (vis.None? ==> o == 0.0)
      && (vis.None? && !pointerActive ==> t == edgeRadius)
  {
    var ring := RingTargets(m, pointerX, pointerY, centerX, centerY, edgeRadius, pointerActive);
    RingTargetsBounds(m, pointerX, pointerY, centerX, centerY, edgeRadius, pointerActive);
    assert 0.9 * edgeRadius <= ring[i] <= edgeRadius;
    OffsetTargetBounds(m, vis, i, phaseOffset, edgeRadius);
    assert Ease(offsets[i], OffsetTarget(m, vis, i, phaseOffset, edgeRadius), RingSmoothing)
        == OffsetTarget(m, vis, i, phaseOffset, edgeRadius);
  }

  /** `computeTargetRadius` for every point, into a new buffer. */
  method ComputeBaseTargets(m: Maths, pointerX: real, pointerY: real, centerX: real, centerY: real,
                            edgeRadius: real, pointerActive: bool) returns (baseTargets: array<real>)
    ensures fresh(baseTargets)
    ensures baseTargets[..] == BaseTargets(m, pointerX, pointerY, centerX, centerY, edgeRadius, pointerActive)
  {
    baseTargets := new real[NumPoints];
    for i := 0 to NumPoints
      invariant forall j :: 0 <= j < i ==>
        baseTargets[j] == TargetRadius(m, PointAngle(j), pointerX, pointerY, centerX, centerY, edgeRadius, pointerActive)
    {
      baseTargets[i] := TargetRadius(m, PointAngle(i), pointerX, pointerY, centerX, centerY, edgeRadius, pointerActive);
    }
  }

  /** The per-point loop of a frame: each audio offset eases towards the
      envelope of its bin (or back to zero), and each point's spring takes
      one step towards its smoothed target plus that offset. */
  method FollowTargets(m: Maths, targets: array<real>, vis: Audio.Option<seq<real>>, phaseOffset: real, edgeRadius: real,
                       radii: array<real>, velocities: array<real>, audioOffsets: array<real>, dt: real)
    requires vis.Some? ==> Bins(vis.value)
    requires 0.0 <= phaseOffset
    requires targets.Length == NumPoints && radii.Length == NumPoints
    requires velocities.Length == NumPoints && audioOffsets.Length == NumPoints
    requires radii != velocities && radii != audioOffsets && velocities != audioOffsets
    requires targets != radii && targets != velocities && targets != audioOffsets
    modifies radii, velocities, audioOffsets
    ensures forall i :: 0 <= i < NumPoints ==>
      audioOffsets[i] == Ease(old(audioOffsets[i]), OffsetTarget(m, vis, i, phaseOffset, edgeRadius), RingSmoothing)
    ensures forall i :: 0 <= i < NumPoints ==>
      Motion(radii[i], velocities[i])
        == Spring(Motion(old(radii[i]), old(velocities[i])), SpringTarget(vis, targets[i], audioOffsets[i]),
                  PointStiffness, PointDamping, dt)
  {
    for i := 0 to NumPoints
      invariant forall j :: 0 <= j < i ==>
        audioOffsets[j] == Ease(old(audioOffsets[j]), OffsetTarget(m, vis, j, phaseOffset, edgeRadius), RingSmoothing)
      invariant forall j :: 0 <= j < i ==>
        Motion(radii[j], velocities[j])
          == Spring(Motion(old(radii[j]), old(velocities[j])), SpringTarget(vis, targets[j], audioOffsets[j]),
                    PointStiffness, PointDamping, dt)
      invariant forall j :: i <= j < NumPoints ==>
        audioOffsets[j] == old(audioOffsets[j]) && radii[j] == old(radii[j]) && velocities[j] == old(velocities[j])
    {
      var targetR := targets[i];
      if vis.Some? {
        var amp := vis.value[OffsetBin(i, phaseOffset)];
        var targetOff := TargetOffset(m, amp, edgeRadius);
        audioOffsets[i] := Ease(audioOffsets[i], targetOff, RingSmoothing);
        targetR := targetR + audioOffsets[i];
      } else {
        audioOffsets[i] := Ease(audioOffsets[i], 0.0, RingSmoothing);
      }
      var s := Spring(Motion(radii[i], velocities[i]), targetR, PointStiffness, PointDamping, dt);
      velocities[i] := s.vel;
      radii[i] := s.pos;
    }
  }

  /** Every point back on the circle of radius `r`, at rest, with no offset. */
  method RestRing(r: real, radii: array<real>, velocities: array<real>, audioOffsets: array<real>)
    requires radii.Length == velocities.Length
    requires radii != velocities && radii != audioOffsets && velocities != audioOffsets
    modifies radii, velocities, audioOffsets
    ensures forall i :: 0 <= i < audioOffsets.Length ==> audioOffsets[i] == 0.0
    ensures forall i :: 0 <= i < radii.Length ==> radii[i] == r && velocities[i] == 0.0
  {
    for i := 0 to audioOffsets.Length
      invariant forall j :: 0 <= j < i ==> audioOffsets[j] == 0.0
    {
      audioOffsets[i] := 0.0;
    }
    for i := 0 to radii.Length
      invariant forall j :: 0 <= j < i ==> radii[j] == r && velocities[j] == 0.0
      invariant forall j :: 0 <= j < audioOffsets.Length ==> audioOffsets[j] == 0.0
    {
      radii[i] := r;
      velocities[i] := 0.0;
    }
  }

  const SilenceRow: seq<real> := seq(VisBins, _ => SilenceDb)

  class OrbEngine {
    // canvas
    var width: real
    var height: real
    var baseRadius: real
    var effectiveBaseRadius: real
    // ring points (their angles are `PointAngle(i)`)
    const radii: array<real>
    const velocities: array<real>
    const audioOffsets: array<real>
    // pointer
    var pointerX: real
    var pointerY: real
    var pointerActive: bool
    var pressedOnOrb: bool
    // centre spring
    var centerX: real
    var centerY: real
    var centerVX: real
    var centerVY: real
    // press spring
    var pressValue: real
    var pressVelocity: real
    var pressTarget: real
    // hover fade and the pointer cursor
    var hoverValue: real
    var cursorPointer: bool
    // playback
    var isRing: bool
    var audio: Audio.AudioState
    var selectedTrack: Audio.Option<int>
    const freqDb: array<Sample>
    // spectral pipeline
    const visPrev: array<real>
    const prevDbBins: array<real>
    const history: array<seq<real>>
    var histIdx: int
    var kickEnv: real
    var hiEnv: real
    var spinVel: real
    var spinVelTarget: real
    var phaseOffset: real
    // `readyFiredRef`
    var readyFired: bool

    /** The engine's invariant: buffer sizes, separate buffers, the ranges
        the envelopes and springs keep, and coherent audio references. */
    ghost predicate Valid()
      reads this, freqDb, visPrev, history
    {
      Buffers() && SpectralState() && Springs() && Playback()
    }

    /** The buffers have their sizes and are pairwise separate. */
    ghost predicate Buffers()
    {
      && radii.Length == NumPoints && velocities.Length == NumPoints && audioOffsets.Length == NumPoints
      && visPrev.Length == VisBins && prevDbBins.Length == VisBins
      && history.Length == History && freqDb.Length == FrequencyBinCount
      && radii != velocities && radii != audioOffsets && radii != visPrev && radii != prevDbBins
      && velocities != audioOffsets && velocities != visPrev && velocities != prevDbBins
      && audioOffsets != visPrev && audioOffsets != prevDbBins && visPrev != prevDbBins
    }

    /** The spectrum buffer holds finite levels, the history is a full ring,
        and the envelopes, spin and phase keep their ranges. */
    ghost predicate SpectralState()
      reads this`histIdx, this`kickEnv, this`hiEnv, this`spinVel, this`phaseOffset, freqDb, visPrev, history
    {
      && IsRing(history[..]) && 0 <= histIdx < History
      && (forall i :: 0 <= i < freqDb.Length ==> freqDb[i].Finite?)
      && InUnit(visPrev[..]) && 0.0 <= kickEnv <= 1.0 && 0.0 <= hiEnv <= 1.0
      && 0.0 <= spinVel && 0.0 <= phaseOffset < 1.0
    }

    /** The canvas, the radii it implies, and the press and hover ranges. */
    ghost predicate Springs()
      reads this`width, this`height, this`baseRadius, this`effectiveBaseRadius
      reads this`pressValue, this`pressTarget, this`pressedOnOrb, this`hoverValue
    {
      && 0.0 <= width && 0.0 <= height && baseRadius == BaseRadius(width, height)
      && 0.0 <= effectiveBaseRadius
      && 0.0 <= pressValue <= 1.0 && (pressTarget == 0.0 || pressTarget == 1.0)
      && (pressedOnOrb ==> pressTarget == 1.0)
      && 0.0 <= hoverValue <= 1.0
    }

    /** The audio references are coherent, the element exists from the
        preload on, and a chosen track is one of the list. */
    ghost predicate Playback()
      reads this`audio, this`selectedTrack
    {
      && Audio.Coherent(audio) && audio.element.Some?
      && (selectedTrack.Some? ==> 0 <= selectedTrack.value < |Audio.Tracks|)
    }

    /** The state the effect sets up before its first frame, the audio
        element preloaded with no source. */
    constructor (w: real, h: real)
      requires 0.0 <= w && 0.0 <= h
      ensures Valid()
      ensures fresh(radii) && fresh(velocities) && fresh(audioOffsets) && fresh(freqDb)
      ensures fresh(visPrev) && fresh(prevDbBins) && fresh(history)
      ensures width == w && height == h && baseRadius == BaseRadius(w, h) && effectiveBaseRadius == baseRadius
      ensures forall i :: 0 <= i < NumPoints ==> radii[i] == baseRadius && velocities[i] == 0.0 && audioOffsets[i] == 0.0
      ensures pointerX == w / 2.0 && pointerY == h / 2.0 && !pointerActive && !pressedOnOrb
      ensures centerX == w / 2.0 && centerY == h / 2.0 && centerVX == 0.0 && centerVY == 0.0
      ensures pressValue == 0.0 && pressVelocity == 0.0 && pressTarget == 0.0
      ensures hoverValue == 0.0 && !cursorPointer && !isRing && selectedTrack.None?
      ensures audio == Audio.AudioState(Audio.None, Audio.Some(Audio.Element("", true, false)), Audio.None, false)
      ensures forall b :: 0 <= b < VisBins ==> visPrev[b] == 0.0 && prevDbBins[b] == SilenceDb
      ensures forall i :: 0 <= i < History ==> history[i] == SilenceRow
      ensures histIdx == 0 && kickEnv == 0.0 && hiEnv == 0.0
      ensures spinVel == 0.0 && spinVelTarget == 0.0 && phaseOffset == 0.0 && !readyFired
    {
      width := w;
      height := h;
      var r0 := BaseRadius(w, h);
      baseRadius := r0;
      effectiveBaseRadius := r0;
      radii := new real[NumPoints](_ => r0);
      velocities := new real[NumPoints](_ => 0.0);
      audioOffsets := new real[NumPoints](_ => 0.0);
      pointerX := w / 2.0;
      pointerY := h / 2.0;
      pointerActive := false;
      pressedOnOrb := false;
      centerX := w / 2.0;
      centerY := h / 2.0;
      centerVX := 0.0;
      centerVY := 0.0;
      pressValue := 0.0;
      pressVelocity := 0.0;
      pressTarget := 0.0;
      hoverValue := 0.0;
      cursorPointer := false;
      isRing := false;
      audio := Audio.Initial.(element := Audio.Some(Audio.EnsureAudioElement(Audio.None, "")));
      selectedTrack := Audio.None;
      freqDb := new Sample[FrequencyBinCount](_ => Finite(0.0));
      visPrev := new real[VisBins](_ => 0.0);
      prevDbBins := new real[VisBins](_ => SilenceDb);
      history := new seq<real>[History](_ => SilenceRow);
      histIdx := 0;
      kickEnv := 0.0;
      hiEnv := 0.0;
      spinVel := 0.0;
      spinVelTarget := 0.0;
      phaseOffset := 0.0;
      readyFired := false;
      new;
      assert history[..] == seq(History, _ => SilenceRow);
      assert SpectralState() && Springs() && Playback();
    }

    // ------------------------------------------------------------ pointer

    /** `handlePointerMove`: the clamped position and whether it is inside. */
    method PointerMove(clientX: real, clientY: real, rect: Interaction.Rect)
      requires Valid()
      modifies this`pointerX, this`pointerY, this`pointerActive
      ensures Valid()
      ensures Interaction.PointerSample(pointerX, pointerY, pointerActive) == Interaction.ClampPointer(clientX, clientY, rect)
    {
      var inside := clientX >= rect.left && clientX <= rect.right && clientY >= rect.top && clientY <= rect.bottom;
      var px := Min(rect.right, Max(rect.left, clientX)) - rect.left;
      var py := Min(rect.bottom, Max(rect.top, clientY)) - rect.top;
      pointerX := px;
      pointerY := py;
      pointerActive := inside;
    }

    /** `handlePointerDown`: a press counts when it lands on the orb, and
        only such a press pushes the orb in. */
    method PointerDown(m: Maths, clientX: real, clientY: real, rect: Interaction.Rect)
      requires Valid() && Lawful(m)
      modifies this`pressedOnOrb, this`pressTarget
      ensures Valid()
      ensures pressedOnOrb == Interaction.OnOrb(m, clientX - rect.left - centerX, clientY - rect.top - centerY, radii[..])
      ensures pressTarget == (if pressedOnOrb then 1.0 else old(pressTarget))
    {
      var px := clientX - rect.left;
      var py := clientY - rect.top;
      pressedOnOrb := Interaction.OnOrb(m, px - centerX, py - centerY, radii[..]);
      if pressedOnOrb {
        pressTarget := 1.0;
      }
    }

    /** `handlePointerUp`: releasing a press that landed on the orb lets it
        spring back with a kick and toggles playback. */
    method PointerUp(p: Audio.Platform, random: real)
      requires Valid()
      modifies this`pressedOnOrb, this`pressTarget, this`pressVelocity, this`isRing, this`audio, this`selectedTrack, freqDb
      ensures Valid()
      ensures !old(pressedOnOrb) ==>
        && !pressedOnOrb && pressTarget == old(pressTarget) && pressVelocity == old(pressVelocity) && isRing == old(isRing)
        && audio == old(audio) && selectedTrack == old(selectedTrack) && freqDb[..] == old(freqDb[..])
      ensures old(pressedOnOrb) ==>
        && !pressedOnOrb && pressTarget == 0.0 && pressVelocity == old(pressVelocity) - 8.0
        && Toggled(p, random, old(isRing), old(audio), old(selectedTrack), old(freqDb[..]))
    {
      if pressedOnOrb {
        pressedOnOrb := false;
        pressTarget := 0.0;
        pressVelocity := pressVelocity - 8.0;
        TogglePlayback(p, random);
      }
    }

    /** What toggling playback does, from the state before it: a playing
        ring stops; a silent orb resumes its track or, the first time,
        picks one with `random` (the `Math.random()` value); a new audio
        context comes with a fresh, zeroed spectrum buffer. */
    ghost predicate Toggled(p: Audio.Platform, random: real, wasRing: bool, audio0: Audio.AudioState,
                            selected0: Audio.Option<int>, spectrum0: seq<Sample>)
      requires selected0.Some? ==> 0 <= selected0.value < |Audio.Tracks|
      reads this`isRing, this`audio, this`selectedTrack, freqDb
    {
      && isRing == !wasRing
      && (wasRing ==> audio == Audio.StopAudio(p, audio0) && selectedTrack == selected0)
      && (!wasRing && selected0.Some? ==> audio == Audio.StartAudio(p, audio0, "") && selectedTrack == selected0)
      && (!wasRing && selected0.None? ==>
            && selectedTrack == Audio.Some(Audio.PickRandomTrack(random))
            && audio == Audio.StartAudio(p, audio0, Audio.StreamUrl(Audio.PickRandomTrack(random))))
      && (audio0.context.None? && audio.context.Some? ==> forall i :: 0 <= i < freqDb.Length ==> freqDb[i] == Finite(0.0))
      && (audio0.context.Some? || audio.context.None? ==> freqDb[..] == spectrum0)
    }

    /** The playback half of `handlePointerUp`. */
    method TogglePlayback(p: Audio.Platform, random: real)
      requires Valid()
      modifies this`isRing, this`audio, this`selectedTrack, freqDb
      ensures Valid()
      ensures Toggled(p, random, old(isRing), old(audio), old(selectedTrack), old(freqDb[..]))
    {
      if isRing {
        isRing := false;
        Audio.LifecyclePreservesCoherence(p, audio, "");
        audio := Audio.StopAudio(p, audio);
        Audio.StopAudioKeepsReferences(p, old(audio));
      } else {
        isRing := true;
        StartPlayback(p, random);
      }
    }

    /** The start half: resume the chosen track, or choose one and play it. */
    method StartPlayback(p: Audio.Platform, random: real)
      requires Valid()
      modifies this`audio, this`selectedTrack, freqDb
      ensures Valid()
      ensures old(selectedTrack).Some? ==> audio == Audio.StartAudio(p, old(audio), "") && selectedTrack == old(selectedTrack)
      ensures old(selectedTrack).None? ==>
        && selectedTrack == Audio.Some(Audio.PickRandomTrack(random))
        && audio == Audio.StartAudio(p, old(audio), Audio.StreamUrl(Audio.PickRandomTrack(random)))
      ensures old(audio).context.None? && audio.context.Some? ==> forall i :: 0 <= i < freqDb.Length ==> freqDb[i] == Finite(0.0)
      ensures old(audio).context.Some? || audio.context.None? ==> freqDb[..] == old(freqDb[..])
    {
      var before := audio;
      if selectedTrack.Some? && audio.element.Some? {
        Audio.LifecyclePreservesCoherence(p, audio, "");
        audio := Audio.StartAudio(p, audio, "");
      } else {
        var choice := Audio.PlayRandomTrack(p, audio, selectedTrack, random);
        Audio.LifecyclePreservesCoherence(p, audio, Audio.StreamUrl(choice.0));
        selectedTrack := Audio.Some(choice.0);
        audio := choice.1;
      }
      if before.context.None? && audio.context.Some? {
        ResetSpectrum();
      }
    }

    /** `new Float32Array(frequencyBinCount)`: every entry zero. */
    method ResetSpectrum()
      requires freqDb.Length == FrequencyBinCount
      modifies freqDb
      ensures forall i :: 0 <= i < freqDb.Length ==> freqDb[i] == Finite(0.0)
    {
      for i := 0 to freqDb.Length
        invariant forall j :: 0 <= j < i ==> freqDb[j] == Finite(0.0)
      {
        freqDb[i] := Finite(0.0);
      }
    }

    // ------------------------------------------------------------- frame

    /** The centre's spring towards the supplied target, axis by axis. */
    method CenterStep(targetCX: real, targetCY: real, dt: real)
      requires Valid()
      modifies this`centerX, this`centerY, this`centerVX, this`centerVY
      ensures Valid()
      ensures Motion(centerX, centerVX) == Spring(Motion(old(centerX), old(centerVX)), targetCX, CenterStiffness, CenterDamping, dt)
      ensures Motion(centerY, centerVY) == Spring(Motion(old(centerY), old(centerVY)), targetCY, CenterStiffness, CenterDamping, dt)
    {
      var sx := Spring(Motion(centerX, centerVX), targetCX, CenterStiffness, CenterDamping, dt);
      var sy := Spring(Motion(centerY, centerVY), targetCY, CenterStiffness, CenterDamping, dt);
      centerX, centerVX := sx.pos, sx.vel;
      centerY, centerVY := sy.pos, sy.vel;
    }

    /** The press spring and its clamp. */
    method PressPhysics(dt: real)
      requires Valid()
      modifies this`pressValue, this`pressVelocity
      ensures Valid()
      ensures Motion(pressValue, pressVelocity) == PressStep(Motion(old(pressValue), old(pressVelocity)), pressTarget, dt)
    {
      var free := Spring(Motion(pressValue, pressVelocity), pressTarget, PressStiffness, PressDamping, dt);
      pressValue, pressVelocity := free.pos, free.vel;
      if pressValue < 0.0 {
        pressValue := 0.0;
        pressVelocity := 0.0;
      }
      if pressValue > 1.0 {
        pressValue := 1.0;
        pressVelocity := 0.0;
      }
    }

    /** The spectral block of a frame: resample the spectrum, record it in
        the history ring, derive the features, follow the envelopes and
        update the kick, high-band, spin and phase state. */
    method SpectralStep(m: Maths, dt: real) returns (dbBins: seq<real>, visValues: seq<real>)
      requires Valid() && Lawful(m) && 0.0 <= dt
      modifies history, visPrev, prevDbBins
      modifies this`histIdx, this`kickEnv, this`hiEnv, this`spinVel, this`spinVelTarget, this`phaseOffset
      ensures Valid()
      ensures dbBins == Resampled(m, Decibels(freqDb[..]))
      ensures history[..] == old(history[..])[old(histIdx) := dbBins]
      ensures histIdx == (old(histIdx) + 1) % History
      ensures prevDbBins[..] == dbBins
      ensures visValues == Envelopes(old(visPrev[..]),
        Amplitudes(Softmax(m, dbBins), ZScores(m, dbBins), Flux(dbBins, old(prevDbBins[..])), Contrast(dbBins),
                   AgcBins(history[..], dbBins)),
        dt)
      ensures visPrev[..] == visValues
      ensures kickEnv == KickStep(old(kickEnv), BassLevel(visValues))
      ensures hiEnv == HiStep(old(hiEnv), HighLevel(visValues))
      ensures spinVelTarget == 0.2 + 3.2 * hiEnv
      ensures spinVel == SpinStep(old(spinVel), hiEnv)
      ensures phaseOffset == PhaseStep(old(phaseOffset), spinVel, dt)
    {
      dbBins, visValues := FeatureStep(m, dt);
      BandStep(visValues, dt);
    }

    /** From the spectrum to the envelopes. */
    method FeatureStep(m: Maths, dt: real) returns (dbBins: seq<real>, visValues: seq<real>)
      requires Valid() && Lawful(m) && 0.0 <= dt
      modifies history, visPrev, prevDbBins, this`histIdx
      ensures Valid()
      ensures dbBins == Resampled(m, Decibels(freqDb[..]))
      ensures history[..] == old(history[..])[old(histIdx) := dbBins]
      ensures histIdx == (old(histIdx) + 1) % History
      ensures prevDbBins[..] == dbBins
      ensures visValues == Envelopes(old(visPrev[..]),
        Amplitudes(Softmax(m, dbBins), ZScores(m, dbBins), Flux(dbBins, old(prevDbBins[..])), Contrast(dbBins),
                   AgcBins(history[..], dbBins)),
        dt)
      ensures visPrev[..] == visValues
    {
      dbBins := RecordSpectrum(m);
      var agcBins, soft, z, flux, contrast := Features(m, dbBins);
      AmplitudesInUnit(soft, z, flux, contrast, agcBins);
      EnvelopesStayInUnit(visPrev[..], Amplitudes(soft, z, flux, contrast, agcBins), dt);
      visValues := MixAndFollow(soft, z, flux, contrast, agcBins, visPrev, dt);
    }

    /** Resample the spectrum and record it in the history ring. */
    method RecordSpectrum(m: Maths) returns (dbBins: seq<real>)
      requires Valid() && Lawful(m)
      modifies history, this`histIdx
      ensures Valid()
      ensures dbBins == Resampled(m, Decibels(freqDb[..]))
      ensures history[..] == old(history[..])[old(histIdx) := dbBins]
      ensures histIdx == (old(histIdx) + 1) % History
    {
      dbBins := ResampleBins(m, freqDb);
      history[histIdx] := dbBins;
      histIdx := (histIdx + 1) % History;
      assert IsRing(history[..]);
    }

    /** The five features of the resampled spectrum; the flux step keeps
        the spectrum for the next frame. */
    method Features(m: Maths, dbBins: seq<real>)
      returns (agcBins: seq<real>, soft: seq<real>, z: seq<real>, flux: seq<real>, contrast: seq<real>)
      requires Valid() && Lawful(m) && Bins(dbBins)
      modifies prevDbBins
      ensures Valid()
      ensures agcBins == AgcBins(history[..], dbBins)
      ensures soft == Softmax(m, dbBins) && z == ZScores(m, dbBins)
      ensures flux == Flux(dbBins, old(prevDbBins[..])) && contrast == Contrast(dbBins)
      ensures prevDbBins[..] == dbBins
      ensures Bins(agcBins) && Bins(soft) && Bins(z) && Bins(flux) && Bins(contrast)
    {
      agcBins := ComputeAgc(history, dbBins);
      soft := ComputeSoftmax(m, dbBins);
      z := ComputeZScores(m, dbBins);
      flux := ComputeFlux(dbBins, prevDbBins);
      contrast := ComputeContrast(dbBins);
    }

    /** From the envelopes to the band levels, and from those to the kick,
        high-band, spin and phase state. */
    method BandStep(visValues: seq<real>, dt: real)
      requires Valid() && Bins(visValues) && InUnit(visValues) && 0.0 <= dt
      modifies this`kickEnv, this`hiEnv, this`spinVel, this`spinVelTarget, this`phaseOffset
      ensures Valid()
      ensures kickEnv == KickStep(old(kickEnv), BassLevel(visValues))
      ensures hiEnv == HiStep(old(hiEnv), HighLevel(visValues))
      ensures spinVelTarget == 0.2 + 3.2 * hiEnv
      ensures spinVel == SpinStep(old(spinVel), hiEnv)
      ensures phaseOffset == PhaseStep(old(phaseOffset), spinVel, dt)
    {
      var bassLevel, highLevel := BandLevels(visValues);
      BandLevelsInUnit(visValues);
      kickEnv := KickStep(kickEnv, bassLevel);
      hiEnv := HiStep(hiEnv, highLevel);
      spinVelTarget := 0.2 + 3.2 * hiEnv;
      spinVel := SpinStep(spinVel, hiEnv);
      phaseOffset := PhaseStep(phaseOffset, spinVel, dt);
    }

    /** The centre and press springs, then the edge radius they and the
        previous frame's kick imply. */
    method Physics(targetCX: real, targetCY: real, dt: real)
      requires Valid()
      modifies this`centerX, this`centerY, this`centerVX, this`centerVY
      modifies this`pressValue, this`pressVelocity, this`effectiveBaseRadius
      ensures Valid()
      ensures Motion(centerX, centerVX) == Spring(Motion(old(centerX), old(centerVX)), targetCX, CenterStiffness, CenterDamping, dt)
      ensures Motion(centerY, centerVY) == Spring(Motion(old(centerY), old(centerVY)), targetCY, CenterStiffness, CenterDamping, dt)
      ensures Motion(pressValue, pressVelocity) == PressStep(Motion(old(pressValue), old(pressVelocity)), pressTarget, dt)
      ensures effectiveBaseRadius == EffectiveBaseRadius(baseRadius, pressValue, kickEnv)
      ensures 0.4 * baseRadius <= effectiveBaseRadius <= 1.08 * baseRadius
    {
      CenterStep(targetCX, targetCY, dt);
      PressPhysics(dt);
      effectiveBaseRadius := EffectiveBaseRadius(baseRadius, pressValue, kickEnv);
      EffectiveBaseRadiusBounds(baseRadius, pressValue, kickEnv);
    }

    /** The spectral block as the rest of the frame sees it: every equation
        of `SpectralStep` but the envelopes' own, which it keeps in
        `visPrev`. */
    method SpectralBlock(m: Maths, dt: real) returns (visValues: seq<real>)
      requires Valid() && Lawful(m) && 0.0 <= dt
      modifies history, visPrev, prevDbBins
      modifies this`histIdx, this`kickEnv, this`hiEnv, this`spinVel, this`spinVelTarget, this`phaseOffset
      ensures Valid()
      ensures history[..] == old(history[..])[old(histIdx) := Resampled(m, Decibels(freqDb[..]))]
      ensures histIdx == (old(histIdx) + 1) % History
      ensures prevDbBins[..] == Resampled(m, Decibels(freqDb[..]))
      ensures visPrev[..] == visValues && Bins(visValues) && InUnit(visValues)
      ensures kickEnv == KickStep(old(kickEnv), BassLevel(visValues))
      ensures hiEnv == HiStep(old(hiEnv), HighLevel(visValues))
      ensures spinVelTarget == 0.2 + 3.2 * hiEnv
      ensures spinVel == SpinStep(old(spinVel), hiEnv)
      ensures phaseOffset == PhaseStep(old(phaseOffset), spinVel, dt)
    {
      var dbBins;
      dbBins, visValues := SpectralStep(m, dt);
    }

    /** The ring part of a frame: targets from the pointer, two smoothing
        passes, then the per-point offsets and springs. */
    method GeometryStep(m: Maths, vis: Audio.Option<seq<real>>, dt: real)
      requires Valid() && Lawful(m) && (vis.Some? ==> Bins(vis.value) && InUnit(vis.value))
      modifies radii, velocities, audioOffsets
      ensures Valid()
      ensures forall i :: 0 <= i < NumPoints ==>
        audioOffsets[i] == Ease(old(audioOffsets[i]), OffsetTarget(m, vis, i, phaseOffset, effectiveBaseRadius), RingSmoothing)
      ensures forall i :: 0 <= i < NumPoints ==>
        Motion(radii[i], velocities[i])
          == Spring(Motion(old(radii[i]), old(velocities[i])),
                    SpringTarget(vis, RingTargets(m, pointerX, pointerY, centerX, centerY, effectiveBaseRadius, pointerActive)[i],
                                 audioOffsets[i]),
                    PointStiffness, PointDamping, dt)
      ensures forall i :: 0 <= i < NumPoints ==> 0.0 <= audioOffsets[i] <= effectiveBaseRadius * AudioMaxOffsetRatio
      ensures vis.None? ==> forall i :: 0 <= i < NumPoints ==> audioOffsets[i] == 0.0
    {
      ghost var offsets0 := audioOffsets[..];
      var baseTargets := ComputeBaseTargets(m, pointerX, pointerY, centerX, centerY, effectiveBaseRadius, pointerActive);
      var finalTargets := SmoothTargets(baseTargets);
      FollowTargets(m, finalTargets, vis, phaseOffset, effectiveBaseRadius, radii, velocities, audioOffsets, dt);
      forall i | 0 <= i < NumPoints
        ensures 0.0 <= audioOffsets[i] <= effectiveBaseRadius * AudioMaxOffsetRatio
        ensures vis.None? ==> audioOffsets[i] == 0.0
      {
        SpringTargetsBounds(m, vis, phaseOffset, pointerX, pointerY, centerX, centerY,
                            effectiveBaseRadius, pointerActive, offsets0, i);
      }
    }

    /** The hover test after the springs moved: the pointer is over the orb
        when it is active and within the ring at its angle; the hover value
        fades towards that and the cursor shows it. */
    method Hover(m: Maths, dt: real)
      requires Valid() && Lawful(m) && 0.0 <= dt
      modifies this`hoverValue, this`cursorPointer
      ensures Valid()
      ensures cursorPointer == (pointerActive && Interaction.OnOrb(m, pointerX - centerX, pointerY - centerY, radii[..]))
      ensures hoverValue == HoverStep(old(hoverValue), cursorPointer, dt)
    {
      var isInsideOrb := pointerActive && Interaction.OnOrb(m, pointerX - centerX, pointerY - centerY, radii[..]);
      hoverValue := HoverStep(hoverValue, isInsideOrb, dt);
      cursorPointer := isInsideOrb;
    }

    /** Every piece of spectral state is as it was: the envelopes, the spin
        and phase, the history ring and its index, `visPrev` and the bins
        kept for the next flux. */
    twostate predicate SpectralKept()
      reads this, history, visPrev, prevDbBins
    {
      && kickEnv == old(kickEnv) && hiEnv == old(hiEnv) && phaseOffset == old(phaseOffset)
      && spinVel == old(spinVel) && spinVelTarget == old(spinVelTarget) && histIdx == old(histIdx)
      && visPrev[..] == old(visPrev[..]) && history[..] == old(history[..]) && prevDbBins[..] == old(prevDbBins[..])
    }

    /** The spectral block and the ring of a frame: the block runs only
        while the ring plays with a live analyser (what it computes is
        `SpectralStep`'s contract), and the points' offsets follow the
        envelopes it yields. */
    method Advance(m: Maths, dt: real)
      requires Valid() && Lawful(m) && 0.0 <= dt
      modifies history, visPrev, prevDbBins
      modifies this`histIdx, this`kickEnv, this`hiEnv, this`spinVel, this`spinVelTarget, this`phaseOffset
      modifies radii, velocities, audioOffsets
      ensures Valid()
      ensures isRing && audio.spectrumLive ==>
        && history[..] == old(history[..])[old(histIdx) := Resampled(m, Decibels(freqDb[..]))]
        && histIdx == (old(histIdx) + 1) % History
        && prevDbBins[..] == Resampled(m, Decibels(freqDb[..]))
        && kickEnv == KickStep(old(kickEnv), BassLevel(visPrev[..]))
        && hiEnv == HiStep(old(hiEnv), HighLevel(visPrev[..]))
        && spinVelTarget == 0.2 + 3.2 * hiEnv
        && spinVel == SpinStep(old(spinVel), hiEnv)
        && phaseOffset == PhaseStep(old(phaseOffset), spinVel, dt)
      ensures !(isRing && audio.spectrumLive) ==>
        && SpectralKept()
        && forall i :: 0 <= i < NumPoints ==> audioOffsets[i] == 0.0
      ensures forall i :: 0 <= i < NumPoints ==>
        0.0 <= audioOffsets[i] <= effectiveBaseRadius * AudioMaxOffsetRatio
    {
      var vis: Audio.Option<seq<real>> := Audio.None;
      if isRing && audio.spectrumLive {
        var visValues := SpectralBlock(m, dt);
        vis := Audio.Some(visValues);
      }
      GeometryStep(m, vis, dt);
    }

    /** `drawCircle`, given the centre's target: the frame's motion, the
        hover fade and the shape to draw. */
    method Frame(m: Maths, targetCX: real, targetCY: real, dt: real) returns (d: Drawing)
      requires Valid() && Lawful(m) && 0.0 <= dt
      modifies this`centerX, this`centerY, this`centerVX, this`centerVY
      modifies this`pressValue, this`pressVelocity, this`effectiveBaseRadius
      modifies history, visPrev, prevDbBins
      modifies this`histIdx, this`kickEnv, this`hiEnv, this`spinVel, this`spinVelTarget, this`phaseOffset
      modifies radii, velocities, audioOffsets, this`hoverValue, this`cursorPointer
      ensures Valid()
      ensures d == Render(isRing, phaseOffset, hiEnv, kickEnv, hoverValue)
      ensures d.Outline? ==> 0 <= d.color <= 0xFF_FFFF && 1.0 <= d.lineWidth <= 40.0
      ensures effectiveBaseRadius == EffectiveBaseRadius(baseRadius, pressValue, old(kickEnv))
      ensures !(isRing && audio.spectrumLive) ==>
        && SpectralKept()
        && forall i :: 0 <= i < NumPoints ==> audioOffsets[i] == 0.0
      ensures forall i :: 0 <= i < NumPoints ==>
        0.0 <= audioOffsets[i] <= effectiveBaseRadius * AudioMaxOffsetRatio
      ensures cursorPointer == (pointerActive && Interaction.OnOrb(m, pointerX - centerX, pointerY - centerY, radii[..]))
      ensures hoverValue == HoverStep(old(hoverValue), cursorPointer, dt)
    {
      Physics(targetCX, targetCY, dt);
      Advance(m, dt);
      Hover(m, dt);
      d := Render(isRing, phaseOffset, hiEnv, kickEnv, hoverValue);
    }
    // ------------------------------------------------------------ ticker

    /** The ticker's capture: the analyser's frame of `getFloatFrequencyData`
        (`raw`) copied into the buffer, then clamped into [minDb, maxDb]
        with non-finite entries at `minDb`. */
    method CaptureSpectrum(raw: seq<Sample>, minDb: real, maxDb: real)
      requires Valid() && |raw| == FrequencyBinCount
      modifies freqDb
      ensures Valid()
      ensures forall i :: 0 <= i < FrequencyBinCount ==> freqDb[i] == ClampSample(raw[i], minDb, maxDb)
    {
      for i := 0 to freqDb.Length
        invariant forall j :: 0 <= j < i ==> freqDb[j] == raw[j]
      {
        freqDb[i] := raw[i];
      }
      ClampDecibels(freqDb, minDb, maxDb);
    }

    /** One tick: while the ring plays with a live analyser the spectrum is
        captured and clamped, then the frame is drawn. */
    method Tick(m: Maths, raw: seq<Sample>, minDb: real, maxDb: real, targetCX: real, targetCY: real, dt: real)
      returns (d: Drawing)
      requires Valid() && Lawful(m) && 0.0 <= dt && |raw| == FrequencyBinCount
      modifies freqDb
      modifies this`centerX, this`centerY, this`centerVX, this`centerVY
      modifies this`pressValue, this`pressVelocity, this`effectiveBaseRadius
      modifies history, visPrev, prevDbBins
      modifies this`histIdx, this`kickEnv, this`hiEnv, this`spinVel, this`spinVelTarget, this`phaseOffset
      modifies radii, velocities, audioOffsets, this`hoverValue, this`cursorPointer
      ensures Valid()
      ensures isRing && audio.spectrumLive ==>
        forall i :: 0 <= i < FrequencyBinCount ==> freqDb[i] == ClampSample(raw[i], minDb, maxDb)
      ensures !(isRing && audio.spectrumLive) ==> freqDb[..] == old(freqDb[..])
      ensures d == Render(isRing, phaseOffset, hiEnv, kickEnv, hoverValue)
      ensures d.Outline? ==> 0 <= d.color <= 0xFF_FFFF && 1.0 <= d.lineWidth <= 40.0
      ensures effectiveBaseRadius == EffectiveBaseRadius(baseRadius, pressValue, old(kickEnv))
      ensures !(isRing && audio.spectrumLive) ==>
        && SpectralKept()
        && forall i :: 0 <= i < NumPoints ==> audioOffsets[i] == 0.0
      ensures forall i :: 0 <= i < NumPoints ==>
        0.0 <= audioOffsets[i] <= effectiveBaseRadius * AudioMaxOffsetRatio
      ensures cursorPointer == (pointerActive && Interaction.OnOrb(m, pointerX - centerX, pointerY - centerY, radii[..]))
      ensures hoverValue == HoverStep(old(hoverValue), cursorPointer, dt)
    {
      if isRing && audio.spectrumLive {
        CaptureSpectrum(raw, minDb, maxDb);
      }
      d := Frame(m, targetCX, targetCY, dt);
    }

    // ------------------------------------------------------------ resize

    /** `onResize` before its redraw: the new size and base radius, the
        points back on the plain circle at rest with no offsets, and the
        centre in the middle (its velocity kept). */
    method Resize(w: real, h: real)
      requires Valid() && 0.0 <= w && 0.0 <= h
      modifies this`width, this`height, this`baseRadius, this`centerX, this`centerY
      modifies radii, velocities, audioOffsets
      ensures Valid()
      ensures width == w && height == h && baseRadius == BaseRadius(w, h)
      ensures forall i :: 0 <= i < NumPoints ==> radii[i] == baseRadius && velocities[i] == 0.0 && audioOffsets[i] == 0.0
      ensures centerX == w / 2.0 && centerY == h / 2.0
    {
      ghost var vis0, history0 := visPrev[..], history[..];
      width := w;
      height := h;
      baseRadius := BaseRadius(width, height);
      RestRing(baseRadius, radii, velocities, audioOffsets);
      assert visPrev[..] == vis0 && history[..] == history0;
      centerX := width / 2.0;
      centerY := height / 2.0;
    }

    /** `onResize`: resize, then redraw. */
    method OnResize(m: Maths, w: real, h: real, targetCX: real, targetCY: real, dt: real) returns (d: Drawing)
      requires Valid() && Lawful(m) && 0.0 <= w && 0.0 <= h && 0.0 <= dt
      modifies this`width, this`height, this`baseRadius
      modifies this`centerX, this`centerY, this`centerVX, this`centerVY
      modifies this`pressValue, this`pressVelocity, this`effectiveBaseRadius
      modifies history, visPrev, prevDbBins
      modifies this`histIdx, this`kickEnv, this`hiEnv, this`spinVel, this`spinVelTarget, this`phaseOffset
      modifies radii, velocities, audioOffsets, this`hoverValue, this`cursorPointer
      ensures Valid()
      ensures width == w && height == h && baseRadius == BaseRadius(w, h)
      ensures d == Render(isRing, phaseOffset, hiEnv, kickEnv, hoverValue)
      ensures d.Outline? ==> 0 <= d.color <= 0xFF_FFFF && 1.0 <= d.lineWidth <= 40.0
      ensures effectiveBaseRadius == EffectiveBaseRadius(baseRadius, pressValue, old(kickEnv))
      ensures !(isRing && audio.spectrumLive) ==>
        && SpectralKept()
        && forall i :: 0 <= i < NumPoints ==> audioOffsets[i] == 0.0
      ensures forall i :: 0 <= i < NumPoints ==>
        0.0 <= audioOffsets[i] <= effectiveBaseRadius * AudioMaxOffsetRatio
      ensures cursorPointer == (pointerActive && Interaction.OnOrb(m, pointerX - centerX, pointerY - centerY, radii[..]))
      ensures hoverValue == HoverStep(old(hoverValue), cursorPointer, dt)
    {
      Resize(w, h);
      d := Frame(m, targetCX, targetCY, dt);
    }

    // ------------------------------------------------------------- ready

    /** The ready signal fires on the first animation frame only. */
    method FireReady() returns (fire: bool)
      modifies this`readyFired
      ensures fire == !old(readyFired)
      ensures readyFired
    {
      fire := false;
      if !readyFired {
        readyFired := true;
        fire := true;
      }
    }
  }
}

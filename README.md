# Orb engine model

A Dafny model of the interactive orb on the OpenAudio website
(`src/components/Orb.tsx`). The orb is a ring of 96 points around a centre
that follows the pointer on a spring. Between frames:

- the pointer pulls nearby points inwards;
- a press pushes the whole orb in;
- a release toggles music playback.

While music plays, each animation frame does the following:

- resamples the analyser's decibel spectrum into 96 visual bins;
- records the bins in a 60-frame history ring;
- derives four features (softmax, rectified z-score, spectral flux, local
  contrast) with a percentile gain control;
- follows their mix with attack/decay envelopes;
- turns the bass and high bands into a "kick" envelope, a high-band
  envelope and a spin of the pattern that maps bins onto ring points.

The points are damped springs pulled towards smoothed targets plus their
audio offsets. The frame then draws a white disc, or a coloured outline
whose hue, lightness and width come from the envelopes.

Modules:

- `Numeric`: exact counterparts of `Math.min/max/abs/round` and of JavaScript's `%`.
- `Transcendental`: `exp`, `pow`, `sqrt`, `hypot` and `atan2`, as a `Maths`
  value that is constrained only by the bounds the engine relies on.
- `Color`: `hslToHex` and the stroke style.
- `Spectrum`: the spectral pipeline, as specification functions on sequences
  and the loops that compute them.
- `Geometry`: the target radius, the neighbour smoothing, the springs, the
  press and the hover fade.
- `Interaction`: the pointer clamp and the hit test.
- `Audio`: the audio lifecycle as a state machine, and the track list.
- `Engine`: the `OrbEngine` class, whose fields are the variables the
  component's effect closes over. Its methods are the handlers, the frame,
  the ticker, the resize handler and the ready signal. Its invariant
  `Valid` keeps several things:
  - the buffer sizes, with the buffers kept separate;
  - the history ring full, and `histIdx` in [0, 60);
  - the envelopes, `visPrev` and the press depth in [0, 1];
  - `phaseOffset` in [0, 1);
  - coherent audio references;
  - a selected track, once there is one, in the track list.

Behaviour worth knowing:

- Resizing does not reset `kickEnv`, `hiEnv`, `phaseOffset`, the history or
  `visPrev`.
- While no music plays, the envelopes are frozen rather than decaying. Only
  the audio offsets relax to zero.
- A release on the orb toggles the ring even when the platform has no audio
  context: the orb then draws its outline without a spectrum.

The resampling gives the top visual bin an empty window, so `dbBins[95]` is
always 0 dB (`Spectrum.LastBinEmpty`).

## Model

| member | source | states |
|---|---|---|
| Numeric.Round | src/components/Orb.tsx:15 | `Math.round` gives the integer within half a unit of its argument (halves go up) |
| Numeric.Rem | src/components/Orb.tsx:586-587 | JavaScript `%` by a positive divisor: the result is in [0, b) for a non-negative dividend and in (-b, 0] for a negative one, and it differs from the dividend by a whole number of divisors |
| Numeric.EaseBetween | src/components/Orb.tsx:517 | one `v += (target - v) * k` step with k in [0, 1] lands between the old value and the target, and on the target when k = 1 |
| Color.Sector | src/components/Orb.tsx:9-14 | the hue sector is in 0..5, and for a hue in [0, 360) the hue lies in that sector's 60-degree band |
| Color.Span | src/components/Orb.tsx:5 | for a lightness in [0, 1] the room for chroma is in [0, 1] and at most twice the distance to black and to white |
| Color.ChromaBounds | src/components/Orb.tsx:5 | the chroma is between 0 and the room the lightness leaves |
| Color.SecondComponentBounds | src/components/Orb.tsx:6 | the second component is between 0 and the chroma |
| Color.UnpackPack | src/components/Orb.tsx:16 | packing byte channels as `R * 65536 + G * 256 + B` (the shifts and or of the source) stays within 24 bits and unpacks back to the same channels |
| Color.ByteOfUnit | src/components/Orb.tsx:15 | a value in [0, 1] scaled by 255 rounds into a byte |
| Color.ChannelsInByte | src/components/Orb.tsx:4-15 | for a non-negative hue and saturation and lightness in [0, 1], every channel is in [0, 255] |
| Color.HslToHexInGamut | src/components/Orb.tsx:4-17 | for such inputs `hslToHex` is a 24-bit colour whose bytes are exactly the three channels |
| Color.UnsaturatedIsGrey | src/components/Orb.tsx:5-15 | zero saturation gives R = G = B = round(255 l), whatever the hue |
| Color.SectorOrder | src/components/Orb.tsx:9-15 | in each sector the chroma channel is the largest and the zero channel the smallest, in that sector's order |
| Color.StrokeHue | src/components/Orb.tsx:586-587 | for a non-negative phase and high envelope the stroke hue is in [0, 360) |
| Color.StrokeColorInGamut | src/components/Orb.tsx:586-590 | while the envelopes and the hover value keep their ranges, the stroke colour is a 24-bit colour |
| Color.LineWidth | src/components/Orb.tsx:591 | the stroke width is in [1, 40] for non-negative envelopes, and exactly 40 once `0.85 kick + 0.25 hi` reaches 1 |
| Interaction.ClampPointer | src/components/Orb.tsx:98-106 | the stored position lies inside the canvas rectangle, and the pointer is active exactly when the clamp left the position unchanged |
| Interaction.AdjustAngle | src/components/Orb.tsx:114-115 | an `atan2` angle in [-pi, pi] becomes one in [0, 2 pi), and non-negative angles are unchanged |
| Interaction.HitIndex | src/components/Orb.tsx:116 | for a non-negative angle the snapped index is a valid point index |
| Interaction.HitIndexNearest | src/components/Orb.tsx:114-117 | for an angle in [0, 2 pi) the snapped point is within half a point spacing of the angle; the last half-spacing before a full turn snaps to point 0 |
| Interaction.OnOrb | src/components/Orb.tsx:112-119 | a press hits exactly when its distance from the centre is at most the current radius of a ring point nearest to its angle (within half a point spacing, point 0 for the last half-spacing before a full turn) |
| Geometry.BaseRadius | src/components/Orb.tsx:156 | the resting radius is 40% of the smaller side, and is non-negative for a non-negative size |
| Geometry.PointAngle | src/components/Orb.tsx:157 | every point's fixed angle is in [0, 2 pi) |
| Geometry.AngularDistance | src/components/Orb.tsx:353-354 | the folded angle to the pointer is at most pi; while the raw difference is within three half-turns (as it always is for an `atan2` angle and a point angle) its size is the circular distance `min(|diff|, |2 pi - |diff||)`, and it is non-negative when the difference is within a full turn |
| Geometry.Smoothstep | src/components/Orb.tsx:360 | the smoothstep is 0 at 0 and 1 at 1 |
| Geometry.SmoothstepUnit | src/components/Orb.tsx:360 | on [0, 1] the smoothstep stays in [0, 1] |
| Geometry.OvershootShare | src/components/Orb.tsx:358-359 | the overshoot past the edge, as a share of the falloff width, is in [0, 1], and is 1 once the overshoot reaches the width |
| Geometry.Falloff | src/components/Orb.tsx:357-361 | the falloff is in [0, 1]; it is 0 while the pointer is within the edge radius and 1 once the pointer is `max(1, 0.45 edge)` beyond it |
| Geometry.Influence | src/components/Orb.tsx:363-365 | the pointer's pull is capped at 10% |
| Geometry.InfluenceBounds | src/components/Orb.tsx:363-365 | with a lawful `exp` and a non-negative falloff, the pull is a share in [0, 10%] |
| Geometry.TargetRadius | src/components/Orb.tsx:347-367 | an inactive pointer, or one no farther from the centre than the edge, leaves the edge radius exactly |
| Geometry.TargetRadiusBounds | src/components/Orb.tsx:347-367 | the target radius is always in [0.9 edge, edge] |
| Geometry.PrevIndex | src/components/Orb.tsx:539 | the previous neighbour is a valid index, wrapping from 0 to n - 1 |
| Geometry.NextIndex | src/components/Orb.tsx:540 | the next neighbour is a valid index, wrapping from n - 1 to 0 |
| Geometry.SmoothPassWithin | src/components/Orb.tsx:538-543 | a smoothing pass never leaves the range of its input |
| Geometry.SmoothPassFixesConstant | src/components/Orb.tsx:538-543 | a constant target array is a fixed point of a pass |
| Geometry.SmoothedWithin | src/components/Orb.tsx:533-548 | any number of passes stays within the input's range |
| Geometry.SmoothedFixesConstant | src/components/Orb.tsx:533-548 | any number of passes leaves a constant array unchanged |
| Geometry.SmoothInto | src/components/Orb.tsx:538-543 | the inner loop writes exactly one smoothing pass of the source buffer into the other buffer |
| Geometry.SmoothTargets | src/components/Orb.tsx:533-548 | the swapped double buffer ends in the buffer it started in, holding two smoothing passes of the base targets |
| Geometry.SpringRestsAtTarget | src/components/Orb.tsx:564-567 | a spring resting on its target stays there |
| Geometry.SpringFromRestApproaches | src/components/Orb.tsx:564-567 | released from rest with `stiffness dt^2 <= 1`, a spring moves towards its target without overshooting it |
| Geometry.SpringEnergyNonIncreasing | src/components/Orb.tsx:564-567 | from any position and velocity, one semi-implicit step with `(damping^2 + stiffness) dt <= 2 damping` does not increase the energy `stiffness (pos - target)^2 + vel^2` |
| Geometry.StepMargin | src/components/Orb.tsx:564-567 | that condition gives the margin `0 <= stiffness dt^2 <= 1 - (1 - damping dt)^2` |
| Geometry.SpringStepShape | src/components/Orb.tsx:564-567 | one step maps the displacement and velocity linearly: `e' = (1 - k dt^2) e + dt (1 - c dt) v` and `v' = (1 - c dt) v - k dt e` |
| Geometry.SpringRunEnergy | src/components/Orb.tsx:564-567 | over any run of frames, each within that bound, the energy about a fixed target never grows |
| Geometry.ShortFramesAreStable | src/components/Orb.tsx:389-398 | frames of at most 100 ms keep the point, centre and press springs within the bound |
| Geometry.LongFrameGainsEnergy | src/components/Orb.tsx:564-567 | a 200 ms frame, past the points' bound, more than doubles a moving point's energy |
| Geometry.PressStep | src/components/Orb.tsx:396-400 | the press depth ends in [0, 1]: the free spring step when it stays in range, and otherwise the violated bound with the velocity zeroed |
| Geometry.EffectiveBaseRadiusBounds | src/components/Orb.tsx:402 | with the press depth and kick in [0, 1], the edge radius is in [0.4 base, 1.08 base] |
| Geometry.OffsetBin | src/components/Orb.tsx:553-554 | the bin a point shows is a valid visual bin |
| Geometry.TargetOffsetBounds | src/components/Orb.tsx:556-557 | an envelope in [0, 1] asks for an offset in [0, 28% of the edge radius] |
| Geometry.RingTargetsBounds | src/components/Orb.tsx:527-548 | the smoothed targets are all in [0.9 edge, edge], and all exactly the edge radius while the pointer is inactive |
| Geometry.HoverStep | src/components/Orb.tsx:579-582 | the hover value stays in [0, 1], moves towards its target without passing it, and reaches it when dt is at least half a second |
| Spectrum.ClampSample | src/components/Orb.tsx:666-671 | a clamped entry is finite and lies in [minDb, maxDb]; non-finite entries become minDb; in-range entries are unchanged |
| Spectrum.ClampIdempotent | src/components/Orb.tsx:666-671 | clamping twice is clamping once |
| Spectrum.ClampDecibels | src/components/Orb.tsx:666-671 | the in-place loop leaves every entry clamped from its old value |
| Spectrum.HalfLen | src/components/Orb.tsx:424 | half the buffer length is at least 1 and never more than half the buffer |
| Spectrum.WindowStart | src/components/Orb.tsx:427-429 | a bin's window starts at index 1 or later |
| Spectrum.WindowEnd | src/components/Orb.tsx:430 | a window ends at most two past its start and never past `halfLen - 1` |
| Spectrum.WindowNonEmpty | src/components/Orb.tsx:427-430 | below the top bin a window starts no later than `halfLen - 1`, so it is not empty |
| Spectrum.LastBinEmpty | src/components/Orb.tsx:427-433 | the top bin's window is empty, so that bin is 0 whatever the spectrum |
| Spectrum.ResampleBounded | src/components/Orb.tsx:424-434 | a spectrum clamped to [lo, hi] gives every bin below the top one in [lo, hi] |
| Spectrum.WindowSum | src/components/Orb.tsx:431-432 | the inner loop sums exactly the window's entries and counts them, giving 0 entries for an empty window |
| Spectrum.WindowAverage | src/components/Orb.tsx:427-433 | one bin's value is the mean of its window, or 0 for an empty window |
| Spectrum.ResampleBins | src/components/Orb.tsx:424-434 | the resampling loop yields the specified 96 bins |
| Spectrum.Insert | src/components/Orb.tsx:442 | inserting into an ascending sequence gives an ascending permutation of the sequence plus the new element |
| Spectrum.SortAscending | src/components/Orb.tsx:442 | the sorted column is an ascending permutation of the column |
| Spectrum.Span | src/components/Orb.tsx:445 | the span is at least 6 dB and at least p90 - p10 |
| Spectrum.AgcValue | src/components/Orb.tsx:446 | a gain-controlled level is non-negative, and 0 when the bin does not exceed the column's p10 |
| Spectrum.PercentilesOrdered | src/components/Orb.tsx:442-445 | p10 is at most p90, and both are entries of the column |
| Spectrum.AgcOfConstantColumn | src/components/Orb.tsx:436-447 | a column that has held one level throughout gives a gain-controlled level of 0 for the frame just recorded |
| Spectrum.GatherColumn | src/components/Orb.tsx:440-441 | the inner loop copies out exactly column b of the history |
| Spectrum.ComputeAgc | src/components/Orb.tsx:438-447 | the AGC loop yields the specified gain-controlled level of every bin |
| Spectrum.MaxFrom | src/components/Orb.tsx:449-450 | a running maximum is at least its start and every element, and is one of them |
| Spectrum.RunningMax | src/components/Orb.tsx:450 | the max loop computes the running maximum from its start value |
| Spectrum.Normaliser | src/components/Orb.tsx:455 | the divisor, the sum or 1 when the sum is 0, is never zero |
| Spectrum.SoftTermsInUnit | src/components/Orb.tsx:454 | every exponential term is in [0, 1], its argument being non-positive |
| Spectrum.TopTermIsOne | src/components/Orb.tsx:454 | the term of a bin at the maximum is 1 |
| Spectrum.ArgMax | src/components/Orb.tsx:449-450 | once some bin reaches the start value, the running maximum is attained at some bin |
| Spectrum.SoftTotalPositive | src/components/Orb.tsx:449-455 | then the sum of the terms is at least 1 |
| Spectrum.NormalisedSum | src/components/Orb.tsx:455 | terms divided by their positive total sum to 1 |
| Spectrum.SoftmaxInUnit | src/components/Orb.tsx:449-455 | every softmax weight is in [0, 1] |
| Spectrum.SoftmaxSumsToOne | src/components/Orb.tsx:449-455 | once some bin reaches -1e9 dB, the weights sum to exactly 1 |
| Spectrum.Exponentials | src/components/Orb.tsx:451-454 | the exponentials loop fills a new buffer with the terms and returns their sum |
| Spectrum.ComputeSoftmax | src/components/Orb.tsx:449-455 | the three softmax loops compute the specified softmax |
| Spectrum.StdDevPositive | src/components/Orb.tsx:457-459 | the standard deviation is at least 1e-6, so the z-scores are defined |
| Spectrum.Rectified | src/components/Orb.tsx:461 | rectified z-scores are non-negative |
| Spectrum.ZScoresInUnit | src/components/Orb.tsx:457-463 | every shaped z-score is in [0, 1] |
| Spectrum.Total | src/components/Orb.tsx:457 | the mean's loop sums the bins |
| Spectrum.SumSquares | src/components/Orb.tsx:458 | the variance loop sums the squared deviations from the mean |
| Spectrum.RectifyAndShape | src/components/Orb.tsx:460-463 | the rectify, max and shape loops compute the shaped rectified scores |
| Spectrum.ComputeZScores | src/components/Orb.tsx:457-463 | the z-score loops compute the specified z-scores |
| Spectrum.FluxValue | src/components/Orb.tsx:467-468 | a bin's flux is non-negative, and positive exactly when the bin rose since the last frame |
| Spectrum.ComputeFlux | src/components/Orb.tsx:465-470 | the flux loop yields the flux against the previous frame, and leaves this frame's bins in `prevDbBins` |
| Spectrum.NeighbourIndex | src/components/Orb.tsx:478 | a neighbour index is clamped into the bins and is unchanged when already inside |
| Spectrum.NeighbourMean | src/components/Orb.tsx:475-481 | the inner loop averages the four neighbours at offsets -2, -1, 1 and 2, skipping the bin itself |
| Spectrum.ContrastValue | src/components/Orb.tsx:481-483 | contrast is non-negative, and positive exactly when the bin stands above its neighbours' mean |
| Spectrum.FlatHasNoContrast | src/components/Orb.tsx:472-484 | a flat spectrum has no contrast anywhere |
| Spectrum.ComputeContrast | src/components/Orb.tsx:472-484 | the contrast loop yields the contrast of every bin |
| Spectrum.MixedAmplitude | src/components/Orb.tsx:496-498 | the mixed amplitude is in [0, 1], and equals the gain-scaled mix whenever that is already in [0, 1] |
| Spectrum.AmplitudesInUnit | src/components/Orb.tsx:495-498 | every bin's amplitude is in [0, 1] |
| Spectrum.EnvelopeRate | src/components/Orb.tsx:493-494 | `min(1, dt / TC)` is in [0, 1] for dt >= 0, and 1 once dt reaches the time constant |
| Spectrum.EnvelopeBetween | src/components/Orb.tsx:499-501 | a new envelope lies between the previous one and the amplitude |
| Spectrum.EnvelopesStayInUnit | src/components/Orb.tsx:495-504 | envelopes in [0, 1] stay in [0, 1] |
| Spectrum.MixAndFollow | src/components/Orb.tsx:491-504 | the mix-and-envelope loop yields the specified envelopes and stores them in `visPrev` |
| Spectrum.BandLevelsInUnit | src/components/Orb.tsx:506-514 | band levels of envelopes in [0, 1] are in [0, 1] |
| Spectrum.BandLevels | src/components/Orb.tsx:506-514 | the one-pass band loop yields the mean of bins 0..11 and the mean of bins 57..95 |
| Spectrum.KickStep | src/components/Orb.tsx:516-517 | the kick envelope moves between its old value and `min(1, 1.6 bass)`, and stays in [0, 1] |
| Spectrum.HiStep | src/components/Orb.tsx:519-520 | the high envelope moves between its old value and `min(1, 1.4 high)`, and stays in [0, 1] |
| Spectrum.SpinStep | src/components/Orb.tsx:522-523 | the spin speed moves towards `0.2 + 3.2 hiEnv` without passing it, and never turns negative |
| Spectrum.PhaseStep | src/components/Orb.tsx:524 | the phase advances by `spinVel dt` modulo whole turns, and stays in [0, 1) |
| Audio.EnsureAudioElement | src/components/Orb.tsx:213-223 | an element is created (paused, not looping, on the given source) only when none exists; a non-empty source replaces the current one; an empty one keeps the element as it is |
| Audio.Play | src/components/Orb.tsx:238-239 | playing keeps the source and the loop flag, and unpauses exactly when the platform lets it |
| Audio.StartAudioEffect | src/components/Orb.tsx:225-289 | without a context or platform support nothing changes; the first start builds the whole graph, with gain 1 and a looping element; a later start keeps the graph, fades in an existing gain node, and never suspends a running context |
| Audio.LifecyclePreservesCoherence | src/components/Orb.tsx:225-323 | starting and stopping keep the references coherent, and keep the element |
| Audio.StopAudioKeepsReferences | src/components/Orb.tsx:314-323 | stopping keeps every reference and pauses the element; only a running context can become suspended; stopping twice is stopping once |
| Audio.RestartResumes | src/components/Orb.tsx:225-253 | once the graph exists, stopping and then starting plays the same source with a fresh fade-in |
| Audio.PickRandomTrack | src/components/Orb.tsx:291-294 | the pick is always a valid track index, and `floor(random * 11)` for a random value in [0, 1) |
| Audio.PickRandomTrackUniform | src/components/Orb.tsx:291-294 | each track owns exactly an eleventh of [0, 1) |
| Audio.SelectTrack | src/components/Orb.tsx:297 | a chosen track is kept; otherwise a random one is picked |
| Audio.StreamUrl | src/components/Orb.tsx:299 | the stream URL is the track URL followed by `/stream`, and is never empty |
| Audio.PlayRandomTrack | src/components/Orb.tsx:296-301 | the chosen (or kept) track is valid, and the audio starts on its stream |
| Audio.SelectionIsSticky | src/components/Orb.tsx:296-299 | after the first choice every later call plays the same track |
| Engine.Render | src/components/Orb.tsx:586-620 | the outline is drawn exactly while the ring plays, and the disc is white otherwise; while the envelopes keep their ranges, the outline's colour is 24-bit and its width in [1, 40] |
| Engine.OffsetTargetBounds | src/components/Orb.tsx:552-561 | a silent ring targets no offset, and a playing one targets offsets in [0, 28% of the edge radius] |
| Engine.SpringTargetsBounds | src/components/Orb.tsx:550-563 | after the offset update, each offset is in [0, 28% edge] and each spring target is in [0.9 edge, 1.28 edge]; a silent ring's offsets are 0, and with the pointer away it targets the plain circle |
| Engine.ComputeBaseTargets | src/components/Orb.tsx:527-531 | the base-target loop fills a new buffer with every point's target radius |
| Engine.FollowTargets | src/components/Orb.tsx:550-568 | every offset eases to the envelope of its bin, or to 0 when silent, and every point takes one spring step towards its target plus that offset |
| Engine.RestRing | src/components/Orb.tsx:633-634 | every offset is 0, every radius r and every velocity 0 |
| Engine.OrbEngine.constructor | src/components/Orb.tsx:94-211 | the state the effect sets up before its first frame: the invariant holds, the points rest on the base circle, the envelopes are 0, the history is silence, and the preloaded element has no source |
| Engine.OrbEngine.PointerMove | src/components/Orb.tsx:98-106 | the pointer state is the clamped sample |
| Engine.OrbEngine.PointerDown | src/components/Orb.tsx:108-123 | a press registers exactly when it hits the orb (active or not), and only a registered press sets the press target to 1 |
| Engine.OrbEngine.PointerUp | src/components/Orb.tsx:124-145 | without a registered press nothing changes and no press is registered; with one, the press is released (target 0, no press registered) with a velocity kick of -8 and playback toggles |
| Engine.OrbEngine.TogglePlayback | src/components/Orb.tsx:129-143 | the ring toggles; a playing ring stops its audio; a silent one resumes its chosen track or picks and plays a random one; a first context brings a zeroed spectrum buffer |
| Engine.OrbEngine.StartPlayback | src/components/Orb.tsx:133-141 | a chosen track resumes from the existing element; otherwise a random track is chosen and started on its stream |
| Engine.OrbEngine.ResetSpectrum | src/components/Orb.tsx:273 | the new spectrum buffer holds zeros |
| Engine.OrbEngine.CenterStep | src/components/Orb.tsx:388-393 | each axis of the centre takes one spring step towards its target |
| Engine.OrbEngine.PressPhysics | src/components/Orb.tsx:396-400 | the press depth and velocity take the clamped press step |
| Engine.OrbEngine.Physics | src/components/Orb.tsx:388-402 | the centre and press springs step, and the edge radius follows the press depth and the previous kick, staying in [0.4 base, 1.08 base] |
| Engine.OrbEngine.RecordSpectrum | src/components/Orb.tsx:424-437 | the resampled bins replace only history row `histIdx`, which advances modulo 60 |
| Engine.OrbEngine.Features | src/components/Orb.tsx:438-484 | the feature loops yield the specified AGC, softmax, z-score, flux and contrast, and remember the bins for the next flux |
| Engine.OrbEngine.FeatureStep | src/components/Orb.tsx:424-504 | from the spectrum to the envelopes: history write, features, mix and envelopes, all as specified |
| Engine.OrbEngine.BandStep | src/components/Orb.tsx:506-524 | the kick, high-band, spin and phase state take their specified steps from the band levels |
| Engine.OrbEngine.SpectralStep | src/components/Orb.tsx:423-525 | the whole spectral block: the resampled bins written to history row `histIdx`, which advances modulo 60, and kept for the next flux; the envelopes followed from the previous ones towards the mix of softmax, z-score, flux, contrast and AGC, and kept in `visPrev`; the kick, high, spin and phase steps from their band levels; the invariant kept (envelopes in [0, 1], phase in [0, 1), history full) |
| Engine.OrbEngine.SpectralBlock | src/components/Orb.tsx:423-525 | the history write and its index, the bins kept for the next flux, envelopes in [0, 1], one per bin, kept in `visPrev`, and the kick, high, spin and phase steps from those envelopes |
| Engine.OrbEngine.GeometryStep | src/components/Orb.tsx:527-568 | offsets and springs follow the smoothed ring targets; offsets stay in [0, 28% edge] and are 0 when silent |
| Engine.OrbEngine.Hover | src/components/Orb.tsx:570-584 | the pointer is over the orb exactly when it is active and within the ring at its angle; the hover value fades towards that, and the cursor shows it |
| Engine.OrbEngine.Advance | src/components/Orb.tsx:419-568 | with live audio the history write, the bins kept for the next flux, and the kick, high, spin and phase steps from the new `visPrev`; without it every piece of spectral state is untouched (`SpectralKept`: envelopes, spin, phase, history and its index, `visPrev`, the bins kept for the next flux) and the offsets are 0; the offsets are always in [0, 28% edge] |
| Engine.OrbEngine.Frame | src/components/Orb.tsx:369-623 | `drawCircle` keeps the invariant, draws the specified shape (24-bit colour, width in [1, 40]), uses an edge radius from the press and the previous kick, without live audio leaves every piece of spectral state untouched (`SpectralKept`) with the offsets 0, keeps the offsets in [0, 28% edge], sets the cursor exactly when the active pointer is on the orb, and fades the hover value towards that |
| Engine.OrbEngine.CaptureSpectrum | src/components/Orb.tsx:662-671 | the buffer ends as the analyser's frame clamped entry by entry |
| Engine.OrbEngine.Tick | src/components/Orb.tsx:661-674 | the spectrum is captured and clamped exactly while the ring plays with a live analyser, and is otherwise untouched; then the frame is drawn, with everything `Frame` states: shape, edge radius, every piece of spectral state untouched without live audio, offset bounds, cursor and hover |
| Engine.OrbEngine.Resize | src/components/Orb.tsx:627-636 | the new size and base radius, every point back on the circle at rest with no offset, and the centre in the middle; the envelopes and history are kept |
| Engine.OrbEngine.OnResize | src/components/Orb.tsx:627-643 | resize and redraw: the new size and base radius, the invariant, and everything `Frame` states of the redraw |
| Engine.OrbEngine.FireReady | src/components/Orb.tsx:651-659 | the ready signal fires exactly once, on the first call |

## Left out

- Rendering through Pixi (the application, the grid texture, the parallax
  `tilePosition` and the polyline drawing), lines 40-92, 404-417 and
  593-620. A frame returns only the style of its shape (`Engine.Drawing`).
- The centre's target: the `tanh` tether and the `sin`/`cos` drift with
  `driftPhase`, lines 370-387. The frame receives the target as a parameter;
  the centre spring itself is modelled.
- Floating point. Numbers are exact reals: no rounding, NaN or infinity,
  and `Float32Array` entries are exact. The analyser's non-finite entries
  are a separate `NonFinite` sample.
- The transcendental functions. The `Maths` value supplies them, and the
  model relies only on the bounds `Lawful` states.
- The platform as parameters:
  - the browser's audio support and the outcomes of `resume`, `play` and
    `suspend` (`Audio.Platform`);
  - the `Math.random()` value;
  - the analyser's raw frame;
  - `analyser.minDecibels` and `maxDecibels`, so the `?? -120` and
    `?? -30` fallbacks are not modelled;
  - the frame time `dt`, which must be non-negative.
- The Web Audio objects. Only what the engine observes of them is kept: the
  context state, the element's source and its paused and loop flags, and
  the gain schedule. The analyser configuration, the node wiring and the
  times of the gain ramp are not modelled.
- Asynchrony. `startAudio`, `stopAudio` and `playRandomTrack` are modelled
  as taking effect at once, and `startAudio`'s own awaits are not
  interleaved with frames.
- The track metadata `fetch` and the `nowPlaying`/`isPlaying` React state,
  lines 139, 142 and 302-311. These are network I/O and UI state.
- The listener registration, the unmount cleanup and the effect wiring,
  lines 25-36, 145-148 and 676-699. The effect's `ensureAudioElement()` and
  first `drawCircle()` (lines 647-648) are the constructor followed by
  `Frame`.
- The cursor style is the boolean `cursorPointer`.
- `angles` is not a stored array. A point's angle is the function
  `Geometry.PointAngle`, so it cannot change.
- `Array.prototype.sort` is modelled by its result: the column sorted
  ascending (`Spectrum.SortAscending`), whichever algorithm produces it.
- Engine.OrbEngine.SpectralBlock: it states every equation of
  `Engine.OrbEngine.SpectralStep` except the envelope equation itself; it
  states only that the envelopes are one per bin, in [0, 1], and kept in
  `visPrev`. `SpectralStep` states the equation.
- Engine.OrbEngine.Advance: it does not restate the envelope equation
  (`SpectralStep`'s contract), nor the ring's offset and spring equations
  (`Engine.OrbEngine.GeometryStep`'s contract). It states the live and the
  silent spectral state and the offset bounds.
- Engine.OrbEngine.Frame: it does not restate the new centre, the press depth
  and velocity (`Engine.OrbEngine.Physics`), the spectral equations
  (`SpectralBlock` and `SpectralStep`), or the radii, velocities and offsets
  (`GeometryStep`). Carried through the whole frame, these would make the
  proof too costly. It states the edge radius, that without live audio every
  piece of spectral state is untouched and the offsets are 0, the offset
  bounds, the cursor, the hover value and the drawn shape.
- Engine.OrbEngine.Tick: after the capture it states what `Frame` states, and
  no more.
- Engine.OrbEngine.OnResize: it states the new size, the base radius and what
  `Frame` states of the redraw. The reset it applies before drawing is stated
  by `Engine.OrbEngine.Resize`.
- Geometry.SpringFromRestApproaches: it covers only the first step from rest.
  A moving spring is covered by `Geometry.SpringEnergyNonIncreasing` and
  `Geometry.SpringRunEnergy`, under the stability bound
  `(damping^2 + stiffness) dt <= 2 damping`. For the points
  (stiffness 22, damping 10) that bound is dt <= 20/122 s, about 164 ms.
  The true divergence threshold of the step is `22 dt^2 + 20 dt < 4`,
  about 169 ms. `Geometry.LongFrameGainsEnergy` shows that a 200 ms frame
  adds energy. The source does not clamp `dt` (`app.ticker.deltaMS`); for
  short frames it relies on Pixi's ticker, which caps the elapsed time.
  That cap is not modelled, and frames of any length are accepted.

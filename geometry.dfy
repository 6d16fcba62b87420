/** The ring's geometry: the pointer's pull on each point's target radius,
    the neighbour smoothing of the targets, the audio offsets, and the
    semi-implicit Euler springs that move the points, the centre and the
    press depth. */
module Geometry {
  import opened Numeric
  import opened Transcendental
  import Spectrum

  const NumPoints: int := 96

  const PointStiffness: real := 22.0
  const PointDamping: real := 10.0
  const AttractionStrength: real := 0.32
  const AttractionSigma: real := 0.78
  const CenterStiffness: real := 2.6
  const CenterDamping: real := 5.6
  const PressStiffness: real := 30.0
  const PressDamping: real := 10.0
  /** The largest fraction of the radius the pointer can pull in. */
  const MaxDeform: real := 0.10
  const SmoothPasses: int := 2
  const SmoothK: real := 0.28
  /** How many times the visual bins repeat around the ring. */
  const Repeats: real := 18.0
  const RingSmoothing: real := 1.0
  const AudioMaxOffsetRatio: real := 0.28

  /** The resting radius: 40% of the smaller side. */
  function BaseRadius(width: real, height: real): (r: real)
    ensures 0.0 <= width && 0.0 <= height ==> 0.0 <= r
    ensures r == 0.4 * Min(width, height)
  {
    Min(width, height) * 0.8 * 0.5
  }

  /** The fixed angle of point `i`, evenly spaced around the circle. */
  function PointAngle(i: int): (a: real)
    ensures 0 <= i < NumPoints ==> 0.0 <= a < 2.0 * Pi
  {
    (i as real / NumPoints as real) * Pi * 2.0
  }

  // --------------------------------------------------------- target radius

  /** The angle between the pointer and a point, folded once by a full turn.
      While the raw difference is within three half-turns (always so for a
      pointer angle in [-pi, pi] and a point angle in [0, 2 pi)) its size is
      the circular distance between the two angles; it is negative only when
      the difference exceeds a full turn, and its square, the only use made of
      it, is the squared circular distance. */
  function AngularDistance(pointerAngle: real, angle: real): (d: real)
    ensures d <= Pi
    ensures Abs(pointerAngle - angle) <= 2.0 * Pi ==> 0.0 <= d
    ensures Abs(pointerAngle - angle) <= 3.0 * Pi ==>
      Abs(d) == Min(Abs(pointerAngle - angle), Abs(Abs(pointerAngle - angle) - 2.0 * Pi))
  {
    var d := Abs(pointerAngle - angle);
    if d > Pi then 2.0 * Pi - d else d
  }

  /** The smoothstep `t^2 (3 - 2t)`, from 0 at `t = 0` to 1 at `t = 1`. */
  function Smoothstep(t: real): (r: real)
    ensures t == 0.0 ==> r == 0.0
    ensures t == 1.0 ==> r == 1.0
  {
    t * t * (3.0 - 2.0 * t)
  }

  /** On [0, 1] the smoothstep stays in [0, 1]: `1 - r = (1 - t)^2 (1 + 2t)`. */
  lemma SmoothstepUnit(t: real)
    requires 0.0 <= t <= 1.0
    ensures 0.0 <= Smoothstep(t) <= 1.0
  {
    MulNonNegative(t * t, 3.0 - 2.0 * t);
    assert 1.0 - Smoothstep(t) == (1.0 - t) * (1.0 - t) * (1.0 + 2.0 * t);
    MulNonNegative((1.0 - t) * (1.0 - t), 1.0 + 2.0 * t);
  }

  /** The overshoot past the edge as a share of the falloff width, capped at 1. */
  lemma OvershootShare(over: real, width: real)
    requires 0.0 <= over && 1.0 <= width
    ensures 0.0 <= Min(1.0, over / width) <= 1.0
    ensures width <= over ==> Min(1.0, over / width) == 1.0
  {
    var q := over / width;
    assert over == q * width;
    if q < 0.0 {
      MulStrict(q, 0.0, width);
    }
    if width <= over && q < 1.0 {
      MulStrict(q, 1.0, width);
    }
  }

  /** The edge falloff: 0 while the pointer is within the edge radius,
      rising smoothly through [0, 1] to 1 once it is 45% of the edge radius
      (at least one pixel) beyond it. */
  function Falloff(distToCenter: real, edgeRadius: real): (f: real)
    ensures distToCenter <= edgeRadius ==> f == 0.0
    ensures 0.0 <= f <= 1.0
    ensures edgeRadius + Max(1.0, edgeRadius * 0.45) <= distToCenter ==> f == 1.0
  {
    var over := Max(0.0, distToCenter - edgeRadius);
    var width := Max(1.0, edgeRadius * 0.45);
    var overNorm := Min(1.0, over / width);
    assert distToCenter <= edgeRadius ==> overNorm == 0.0;
    OvershootShare(over, width);
    SmoothstepUnit(overNorm);
    Smoothstep(overNorm)
  }

  /** How far the pointer's pull bites: the share of the edge radius it
      removes, a Gaussian in the angle to the pointer scaled by the edge
      falloff, capped at 10%. */
  function Influence(m: Maths, dTheta: real, overSmooth: real): (k: real)
    ensures k <= MaxDeform
  {
    var gauss := m.exp(-(dTheta * dTheta) / (2.0 * AttractionSigma * AttractionSigma));
    Min(MaxDeform, AttractionStrength * gauss * overSmooth)
  }

  /** With a lawful `exp` and a non-negative falloff the pull is a share in
      [0, 10%]. */
  lemma InfluenceBounds(m: Maths, dTheta: real, overSmooth: real)
    requires Lawful(m) && 0.0 <= overSmooth
    ensures 0.0 <= Influence(m, dTheta, overSmooth) <= MaxDeform
  {
    var x := -(dTheta * dTheta) / (2.0 * AttractionSigma * AttractionSigma);
    SquareNonNegative(dTheta);
    assert x <= 0.0;
    var gauss := m.exp(x);
    MulNonNegative(AttractionStrength, gauss);
    MulNonNegative(AttractionStrength * gauss, overSmooth);
  }

  /** `computeTargetRadius`: the point's radius pulled in towards a pointer
      that is past the edge, most strongly at the pointer's angle, by at
      most 10%. An inactive pointer, or one inside the edge, leaves the edge
      radius untouched. */
  function TargetRadius(m: Maths, angle: real, pointerX: real, pointerY: real,
                        centerX: real, centerY: real, edgeRadius: real, pointerActive: bool): (r: real)
    ensures !pointerActive ==> r == edgeRadius
    ensures m.hypot(pointerX - centerX, pointerY - centerY) <= edgeRadius ==> r == edgeRadius
  {
    var dxC := pointerX - centerX;
    var dyC := pointerY - centerY;
    var distToCenter := m.hypot(dxC, dyC);
    var dTheta := AngularDistance(m.atan2(dyC, dxC), angle);
    if !pointerActive then edgeRadius
    else
      var overSmooth := Falloff(distToCenter, edgeRadius);
      if overSmooth <= 0.0 then edgeRadius
      else edgeRadius * (1.0 - Influence(m, dTheta, overSmooth))
  }

  /** The pull only ever shrinks the radius, to no less than 90% of the edge. */
  lemma TargetRadiusBounds(m: Maths, angle: real, pointerX: real, pointerY: real,
                           centerX: real, centerY: real, edgeRadius: real, pointerActive: bool)
    requires Lawful(m) && 0.0 <= edgeRadius
    ensures var r := TargetRadius(m, angle, pointerX, pointerY, centerX, centerY, edgeRadius, pointerActive);
      0.9 * edgeRadius <= r <= edgeRadius
  {
    var dxC := pointerX - centerX;
    var dyC := pointerY - centerY;
    var dTheta := AngularDistance(m.atan2(dyC, dxC), angle);
    var overSmooth := Falloff(m.hypot(dxC, dyC), edgeRadius);
    var r := TargetRadius(m, angle, pointerX, pointerY, centerX, centerY, edgeRadius, pointerActive);
    if pointerActive && overSmooth > 0.0 {
      var k := Influence(m, dTheta, overSmooth);
      assert r == edgeRadius * (1.0 - k);
      InfluenceBounds(m, dTheta, overSmooth);
      Shrink(edgeRadius, k);
      assert 0.9 * edgeRadius <= r <= edgeRadius;
    } else {
      assert r == edgeRadius;
    }
  }

  lemma SquareNonNegative(x: real)
    ensures 0.0 <= x * x
  {
    if x < 0.0 {
      MulMono(x, 0.0, -x);
    } else {
      MulMono(0.0, x, x);
    }
  }

  lemma Shrink(edge: real, influence: real)
    requires 0.0 <= edge && 0.0 <= influence <= MaxDeform
    ensures 0.9 * edge <= edge * (1.0 - influence) <= edge
  {
    MulMono(0.9, 1.0 - influence, edge);
    MulMono(1.0 - influence, 1.0, edge);
  }

  // ------------------------------------------------------------ smoothing

  /** The circular neighbours of point `i`. */
  function PrevIndex(i: int, n: int): (j: int)
    requires 0 <= i < n
    ensures 0 <= j < n
    ensures j == (if i == 0 then n - 1 else i - 1)
  {
    (i - 1 + n) % n
  }

  function NextIndex(i: int, n: int): (j: int)
    requires 0 <= i < n
    ensures 0 <= j < n
    ensures j == (if i == n - 1 then 0 else i + 1)
  {
    (i + 1) % n
  }

  /** One smoothing pass: each target moves 28% of the way to the mean of
      its two circular neighbours. */
  function SmoothPass(from: seq<real>): (to: seq<real>)
    ensures |to| == |from|
  {
    var n := |from|;
    seq(n, i requires 0 <= i < n =>
      from[i] * (1.0 - SmoothK) + 0.5 * (from[PrevIndex(i, n)] + from[NextIndex(i, n)]) * SmoothK)
  }

  /** `p` smoothing passes. */
  function Smoothed(s: seq<real>, p: nat): (r: seq<real>)
    ensures |r| == |s|
  {
    if p == 0 then s else SmoothPass(Smoothed(s, p - 1))
  }

  predicate Within(s: seq<real>, lo: real, hi: real)
  {
    forall i :: 0 <= i < |s| ==> lo <= s[i] <= hi
  }

  /** A pass never leaves the range of its input. */
  lemma SmoothPassWithin(from: seq<real>, lo: real, hi: real)
    requires Within(from, lo, hi)
    ensures Within(SmoothPass(from), lo, hi)
  {
  }

  /** A constant target array is a fixed point of a pass. */
  lemma SmoothPassFixesConstant(from: seq<real>, c: real)
    requires forall i :: 0 <= i < |from| ==> from[i] == c
    ensures SmoothPass(from) == from
  {
  }

  /** So every number of passes stays within the input's range, and keeps a
      constant array as it is. */
  lemma {:induction false} SmoothedWithin(s: seq<real>, p: nat, lo: real, hi: real)
    requires Within(s, lo, hi)
    ensures Within(Smoothed(s, p), lo, hi)
  {
    if p > 0 {
      SmoothedWithin(s, p - 1, lo, hi);
      SmoothPassWithin(Smoothed(s, p - 1), lo, hi);
    }
  }

  lemma {:induction false} SmoothedFixesConstant(s: seq<real>, p: nat, c: real)
    requires forall i :: 0 <= i < |s| ==> s[i] == c
    ensures Smoothed(s, p) == s
  {
    if p > 0 {
      SmoothedFixesConstant(s, p - 1, c);
      var before := Smoothed(s, p - 1);
      assert before == s;
      SmoothPassFixesConstant(before, c);
    }
  }

  /** The two smoothing passes over a swapped pair of buffers. The targets
      end up in the buffer they started in, which is returned. */
  method SmoothTargets(baseTargets: array<real>) returns (finalTargets: array<real>)
    requires baseTargets.Length == NumPoints
    modifies baseTargets
    ensures finalTargets == baseTargets
    ensures finalTargets[..] == Smoothed(old(baseTargets[..]), SmoothPasses as nat)
  {
    ghost var start := baseTargets[..];
    var from := baseTargets;
    var to := new real[NumPoints];
    for p := 0 to SmoothPasses
      invariant from != to && from.Length == to.Length == NumPoints
      invariant from == baseTargets || to == baseTargets
      invariant (p % 2 == 0) == (from == baseTargets)
      invariant fresh(if from == baseTargets then to else from)
      invariant from[..] == Smoothed(start, p)
    {
      SmoothInto(from, to);
      var tmp := from;
      from := to;
      to := tmp;
    }
    finalTargets := from;
  }

  /** One pass from one buffer into the other. */
  method SmoothInto(from: array<real>, to: array<real>)
    requires from != to && from.Length == to.Length
    modifies to
    ensures to[..] == SmoothPass(from[..])
  {
    var n := from.Length;
    for i := 0 to n
      invariant forall j :: 0 <= j < i ==> to[j] == SmoothPass(from[..])[j]
    {
      var im1 := (i - 1 + n) % n;
      var ip1 := (i + 1) % n;
      var neighborAvg := 0.5 * (from[im1] + from[ip1]);
      to[i] := from[i] * (1.0 - SmoothK) + neighborAvg * SmoothK;
    }
  }

  // -------------------------------------------------------------- springs

  /** A position and its velocity. */
  datatype Motion = Motion(pos: real, vel: real)

  /** One semi-implicit Euler step of a damped spring towards `target`:
      the velocity is updated first and moves the position. */
  function Spring(s: Motion, target: real, stiffness: real, damping: real, dt: real): Motion
  {
    var acc := stiffness * (target - s.pos) - damping * s.vel;
    var vel := s.vel + acc * dt;
    Motion(s.pos + vel * dt, vel)
  }

  /** A spring at rest on its target stays there. */
  lemma SpringRestsAtTarget(target: real, stiffness: real, damping: real, dt: real)
    ensures Spring(Motion(target, 0.0), target, stiffness, damping, dt) == Motion(target, 0.0)
  {
  }

  /** Released from rest with `stiffness * dt^2 <= 1`, a spring moves towards
      its target without passing it. */
  lemma SpringFromRestApproaches(pos: real, target: real, stiffness: real, damping: real, dt: real)
    requires 0.0 <= stiffness && 0.0 <= dt && stiffness * dt * dt <= 1.0
    ensures var s := Spring(Motion(pos, 0.0), target, stiffness, damping, dt);
      Min(pos, target) <= s.pos <= Max(pos, target)
  {
    var g := stiffness * dt * dt;
    MulNonNegative(stiffness, dt);
    MulNonNegative(stiffness * dt, dt);
    var s := Spring(Motion(pos, 0.0), target, stiffness, damping, dt);
    assert s.pos == pos + ((stiffness * (target - pos)) * dt) * dt;
    assert ((stiffness * (target - pos)) * dt) * dt == (target - pos) * g;
    EaseBetween(pos, target, g);
  }

  /** The spring's energy about its target: the stiffness times the squared
      displacement, plus the squared velocity. */
  function SpringEnergy(s: Motion, target: real, stiffness: real): real
  {
    stiffness * (s.pos - target) * (s.pos - target) + s.vel * s.vel
  }

  /** The step is stable when `(damping^2 + stiffness) dt <= 2 damping`: the
      energy never grows, whatever the position and velocity. Writing
      `a = 1 - damping dt` and `u = stiffness dt^2`, the energy lost is a
      quadratic form in displacement and velocity whose discriminant is
      `stiffness^2 dt^2 (1 - u - a^2)`, and the condition makes that
      non-negative. */
  lemma SpringEnergyNonIncreasing(s: Motion, target: real, stiffness: real, damping: real, dt: real)
    requires 0.0 <= stiffness && 0.0 <= dt
    requires (damping * damping + stiffness) * dt <= 2.0 * damping
    ensures SpringEnergy(Spring(s, target, stiffness, damping, dt), target, stiffness)
         <= SpringEnergy(s, target, stiffness)
  {
    var e, v, k, h, c := s.pos - target, s.vel, stiffness, dt, damping;
    var a := 1.0 - c * h;
    StepMargin(k, h, c);
    SpringStepShape(s, target, k, c, h);
    StepLoss(k, h, a, e, v, (1.0 - k * h * h) * e + h * a * v, a * v - (k * h) * e);
  }

  /** The condition gives the margin `0 <= k h^2 <= 1 - (1 - c h)^2`. */
  lemma StepMargin(k: real, h: real, c: real)
    requires 0.0 <= k && 0.0 <= h && (c * c + k) * h <= 2.0 * c
    ensures 0.0 <= k * h * h <= 1.0 - (1.0 - c * h) * (1.0 - c * h)
  {
    MulMono((c * c + k) * h, 2.0 * c, h);
    StabilityMargin(k, h, c);
    MulNonNegative(k, h * h);
  }

  /** One step moves the offset from the target to `(1 - k h^2) e + h a v`
      and the velocity to `a v - k h e`, where `a = 1 - c h`. */
  lemma SpringStepShape(s: Motion, target: real, k: real, c: real, h: real)
    ensures var a := 1.0 - c * h;
      && Spring(s, target, k, c, h).pos - target == (1.0 - k * h * h) * (s.pos - target) + h * a * s.vel
      && Spring(s, target, k, c, h).vel == a * s.vel - (k * h) * (s.pos - target)
  {
  }

  /** One step loses energy when `0 <= k h^2 <= 1 - a^2`. */
  lemma StepLoss(k: real, h: real, a: real, e: real, v: real, e': real, v': real)
    requires 0.0 <= k * h * h <= 1.0 - a * a
    requires e' == (1.0 - k * h * h) * e + h * a * v && v' == a * v - (k * h) * e
    ensures k * e' * e' + v' * v' <= k * e * e + v * v
  {
    assert (k * h) * (k * h) * (h * h) == (k * h * h) * (k * h * h);
    StableLoss(k * h, a, h, k * h * h, e, v);
    EnergyLoss(k, h, a, e, v, e', v');
  }

  /** Under the stability margin `0 <= u <= 1 - a^2` (with `u^2 = (k h)^2 h^2`)
      the energy lost in a step takes no negative value. */
  lemma StableLoss(kh: real, a: real, h: real, u: real, e: real, v: real)
    requires 0.0 <= u <= 1.0 - a * a && kh * kh * (h * h) == u * u
    ensures 0.0 <= kh * kh * (1.0 - u) * e * e + 2.0 * (a * kh * kh * h) * e * v + (1.0 - a * a * (1.0 + u)) * v * v
  {
    var p, q, r := kh * kh * (1.0 - u), a * kh * kh * h, 1.0 - a * a * (1.0 + u);
    SquareNonNegative(kh);
    SquareNonNegative(a);
    MulNonNegative(kh * kh, 1.0 - u);
    MulNonNegative(kh * kh, 1.0 - u - a * a);
    MarginRoom(a * a, u);
    Discriminant(kh, a, h, u);
    QuadraticFormNonNegative(p, q, r, e, v);
  }

  /** A margin `u <= 1 - a2` leaves room for `a2 (1 + u) <= 1`. */
  lemma MarginRoom(a2: real, u: real)
    requires 0.0 <= a2 && 0.0 <= u <= 1.0 - a2
    ensures 0.0 <= 1.0 - a2 * (1.0 + u)
  {
    MulMono(a2, 1.0, u);
    assert a2 * (1.0 + u) == a2 + a2 * u;
    assert a2 + a2 * u <= a2 + u <= 1.0;
  }

  /** `(c^2 + k) h^2 <= 2 c h` says `k h^2 <= 1 - (1 - c h)^2`. */
  lemma StabilityMargin(k: real, h: real, c: real)
    requires (c * c + k) * h * h <= 2.0 * c * h
    ensures k * h * h <= 1.0 - (1.0 - c * h) * (1.0 - c * h)
  {
  }

  /** The discriminant of the energy lost in one spring step. */
  lemma Discriminant(kh: real, a: real, h: real, u: real)
    requires kh * kh * (h * h) == u * u
    ensures (kh * kh * (1.0 - u)) * (1.0 - a * a * (1.0 + u)) - (a * kh * kh * h) * (a * kh * kh * h)
         == kh * kh * (1.0 - u - a * a)
  {
  }

  /** The energy lost in one spring step, as a quadratic form in the
      displacement `e` and the velocity `v`, with `a = 1 - damping dt`. */
  lemma EnergyLoss(k: real, h: real, a: real, e: real, v: real, e': real, v': real)
    requires e' == (1.0 - k * h * h) * e + h * a * v && v' == a * v - (k * h) * e
    ensures (k * e * e + v * v) - (k * e' * e' + v' * v')
         == (k * h) * (k * h) * (1.0 - k * h * h) * e * e + 2.0 * (a * (k * h) * (k * h) * h) * e * v
            + (1.0 - a * a * (1.0 + k * h * h)) * v * v
  {
  }

  /** The spring stepped through a run of frame times. */
  function SpringRun(s: Motion, target: real, stiffness: real, damping: real, dts: seq<real>): Motion
    decreases |dts|
  {
    if |dts| == 0 then s
    else SpringRun(Spring(s, target, stiffness, damping, dts[0]), target, stiffness, damping, dts[1..])
  }

  /** Over any run of frames each within the stability bound the energy,
      and with it the displacement from a fixed target, never grows. */
  lemma {:induction false} SpringRunEnergy(s: Motion, target: real, stiffness: real, damping: real, dts: seq<real>)
    requires 0.0 <= stiffness
    requires forall i :: 0 <= i < |dts| ==>
      0.0 <= dts[i] && (damping * damping + stiffness) * dts[i] <= 2.0 * damping
    ensures SpringEnergy(SpringRun(s, target, stiffness, damping, dts), target, stiffness)
         <= SpringEnergy(s, target, stiffness)
    decreases |dts|
  {
    if |dts| != 0 {
      SpringEnergyNonIncreasing(s, target, stiffness, damping, dts[0]);
      SpringRunEnergy(Spring(s, target, stiffness, damping, dts[0]), target, stiffness, damping, dts[1..]);
    }
  }

  /** Frames of at most 100 ms keep the point, centre and press springs
      within the stability bound; for the points the bound itself is
      `20 / 122` s, about 164 ms. */
  lemma ShortFramesAreStable(dt: real)
    requires 0.0 <= dt <= 0.1
    ensures (PointDamping * PointDamping + PointStiffness) * dt <= 2.0 * PointDamping
    ensures (CenterDamping * CenterDamping + CenterStiffness) * dt <= 2.0 * CenterDamping
    ensures (PressDamping * PressDamping + PressStiffness) * dt <= 2.0 * PressDamping
  {
  }

  /** A 200 ms frame, past the points' bound, more than doubles the energy
      of a point moving away from its target. */
  lemma LongFrameGainsEnergy()
    ensures var s := Motion(1.0, 8.0);
      SpringEnergy(Spring(s, 0.0, PointStiffness, PointDamping, 0.2), 0.0, PointStiffness)
        > 2.0 * SpringEnergy(s, 0.0, PointStiffness)
  {
  }

  /** The press spring, clamped to a depth in [0, 1]; a clamp that fires
      also stops the spring. */
  function PressStep(s: Motion, pressTarget: real, dt: real): (r: Motion)
    ensures 0.0 <= r.pos <= 1.0
    ensures var free := Spring(s, pressTarget, PressStiffness, PressDamping, dt);
      && (0.0 <= free.pos <= 1.0 ==> r == free)
      && (free.pos < 0.0 ==> r == Motion(0.0, 0.0))
      && (1.0 < free.pos ==> r == Motion(1.0, 0.0))
  {
    var free := Spring(s, pressTarget, PressStiffness, PressDamping, dt);
    if free.pos < 0.0 then Motion(0.0, 0.0)
    else if free.pos > 1.0 then Motion(1.0, 0.0)
    else free
  }

  /** The edge radius: pressed in by up to 60%, swollen by the kick by up to 8%. */
  function EffectiveBaseRadius(baseRadius: real, pressValue: real, kickEnv: real): real
  {
    baseRadius * (1.0 - 0.6 * pressValue) * (1.0 + 0.08 * kickEnv)
  }

  lemma EffectiveBaseRadiusBounds(baseRadius: real, pressValue: real, kickEnv: real)
    requires 0.0 <= baseRadius && 0.0 <= pressValue <= 1.0 && 0.0 <= kickEnv <= 1.0
    ensures 0.4 * baseRadius <= EffectiveBaseRadius(baseRadius, pressValue, kickEnv) <= 1.08 * baseRadius
  {
    var a := 1.0 - 0.6 * pressValue;
    var b := 1.0 + 0.08 * kickEnv;
    MulBetween(baseRadius, 0.4, a, 1.0);
    var ra := baseRadius * a;
    MulBetween(ra, 1.0, b, 1.08);
    MulBetween(1.08, 0.4 * baseRadius, ra, baseRadius);
  }

  // -------------------------------------------------------- audio offsets

  /** The visual bin that point `i` shows: the bins repeat 18 times around
      the ring, shifted by the spinning phase. */
  function OffsetBin(i: int, phaseOffset: real): (x: int)
    ensures 0 <= i && 0.0 <= phaseOffset ==> 0 <= x < Spectrum.VisBins
  {
    var phase := Rem((i as real / NumPoints as real) * Repeats + phaseOffset, 1.0);
    Round(phase * (Spectrum.VisBins - 1) as real)
  }

  /** The outward offset a bin's envelope asks for, at most 28% of the edge radius. */
  function TargetOffset(m: Maths, amp: real, edgeRadius: real): real
  {
    m.pow(amp, 1.3) * (edgeRadius * AudioMaxOffsetRatio)
  }

  lemma TargetOffsetBounds(m: Maths, amp: real, edgeRadius: real)
    requires Lawful(m) && 0.0 <= amp <= 1.0 && 0.0 <= edgeRadius
    ensures 0.0 <= TargetOffset(m, amp, edgeRadius) <= edgeRadius * AudioMaxOffsetRatio
  {
    var k := m.pow(amp, 1.3);
    assert 0.0 <= k <= 1.0;
    var d := edgeRadius * AudioMaxOffsetRatio;
    assert TargetOffset(m, amp, edgeRadius) == k * d;
    ScaleDown(d, k);
  }

  // ---------------------------------------------------------- ring targets

  /** `computeTargetRadius` at every point of the ring. */
  function BaseTargets(m: Maths, pointerX: real, pointerY: real, centerX: real, centerY: real,
                       edgeRadius: real, pointerActive: bool): (t: seq<real>)
    ensures |t| == NumPoints
  {
    seq(NumPoints, i requires 0 <= i < NumPoints =>
      TargetRadius(m, PointAngle(i), pointerX, pointerY, centerX, centerY, edgeRadius, pointerActive))
  }

  /** The targets the point springs pull towards, after neighbour smoothing. */
  function RingTargets(m: Maths, pointerX: real, pointerY: real, centerX: real, centerY: real,
                       edgeRadius: real, pointerActive: bool): (t: seq<real>)
    ensures |t| == NumPoints
  {
    Smoothed(BaseTargets(m, pointerX, pointerY, centerX, centerY, edgeRadius, pointerActive), SmoothPasses as nat)
  }

  /** The pointer pulls the ring in by at most a tenth of its radius, and a
      ring without an active pointer targets a perfect circle. */
  lemma {:induction false} RingTargetsBounds(m: Maths, pointerX: real, pointerY: real, centerX: real, centerY: real,
                                             edgeRadius: real, pointerActive: bool)
    requires Lawful(m) && 0.0 <= edgeRadius
    ensures Within(RingTargets(m, pointerX, pointerY, centerX, centerY, edgeRadius, pointerActive),
                   0.9 * edgeRadius, edgeRadius)
    ensures !pointerActive ==>
      forall i :: 0 <= i < NumPoints ==> RingTargets(m, pointerX, pointerY, centerX, centerY, edgeRadius, pointerActive)[i] == edgeRadius
  {
    var base := BaseTargets(m, pointerX, pointerY, centerX, centerY, edgeRadius, pointerActive);
    forall i | 0 <= i < NumPoints
      ensures 0.9 * edgeRadius <= base[i] <= edgeRadius
    {
      TargetRadiusBounds(m, PointAngle(i), pointerX, pointerY, centerX, centerY, edgeRadius, pointerActive);
    }
    SmoothedWithin(base, SmoothPasses as nat, 0.9 * edgeRadius, edgeRadius);
    if !pointerActive {
      SmoothedFixesConstant(base, SmoothPasses as nat, edgeRadius);
    }
  }

  // ----------------------------------------------------------------- hover

  const HoverFadeSpeed: real := 2.0

  /** The hover value fades towards 1 while the pointer is over the orb and
      towards 0 otherwise, at `min(1, 2 dt)` of the gap per frame; it stays
      in [0, 1] and reaches its target within half a second. */
  function HoverStep(hover: real, inside: bool, dt: real): (h: real)
    ensures 0.0 <= dt && 0.0 <= hover <= 1.0 ==> 0.0 <= h <= 1.0
    ensures 0.0 <= dt ==> Min(hover, if inside then 1.0 else 0.0) <= h <= Max(hover, if inside then 1.0 else 0.0)
    ensures 0.5 <= dt ==> h == (if inside then 1.0 else 0.0)
  {
    var target := if inside then 1.0 else 0.0;
    var k := Min(1.0, dt * HoverFadeSpeed);
    if 0.0 <= dt then
      EaseBetween(hover, target, k);
      Ease(hover, target, k)
    else
      Ease(hover, target, k)
  }
}

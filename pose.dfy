/** Pose Smoother and Focus Classifier of the focus tracker: exponential smoothing of the
    head's yaw and pitch proxies, and the three disjoint pose branches with the telemetry
    record each one sends. */
module Pose {

  /** Weight of the new raw sample in the exponential smoothing. */
  const SmoothingFactor: real := 0.2
  /** Both smoothed values start centred, before any face is seen. */
  const InitialYaw: real := 0.5
  const InitialPitch: real := 0.5

  /** A normalised landmark point (x grows to the right, y downwards). */
  datatype Point = Point(x: real, y: real)

  function Abs(x: real): real { if x < 0.0 then -x else x }
  function Min(a: real, b: real): real { if a <= b then a else b }
  function Max(a: real, b: real): real { if a <= b then b else a }

  /** Raw yaw: the nose's horizontal distance from the left eye relative to the eye distance
      (0.5 is centred). The eyes must not share an x coordinate. */
  function RawYaw(nose: Point, leftEye: Point, rightEye: Point): (r: real)
    requires rightEye.x != leftEye.x
    ensures r >= 0.0 && r * Abs(rightEye.x - leftEye.x) == Abs(nose.x - leftEye.x)
    ensures 2.0 * (nose.x - leftEye.x) == rightEye.x - leftEye.x ==> r == 0.5
  {
    if 2.0 * (nose.x - leftEye.x) == rightEye.x - leftEye.x then
      assert Abs(nose.x - leftEye.x) == 0.5 * Abs(rightEye.x - leftEye.x);
      assert (0.5 * Abs(rightEye.x - leftEye.x)) / Abs(rightEye.x - leftEye.x) == 0.5;
      Abs(nose.x - leftEye.x) / Abs(rightEye.x - leftEye.x)
    else
      Abs(nose.x - leftEye.x) / Abs(rightEye.x - leftEye.x)
  }

  /** Raw pitch: the nose's vertical position (0 is the top of the frame). */
  function RawPitch(nose: Point): real { nose.y }

  /** One smoothing step. The result lies between the raw sample and the previous value,
      and its distance to the raw sample is 0.8 of the previous distance. */
  function Smooth(raw: real, prev: real): (r: real)
    ensures Min(raw, prev) <= r <= Max(raw, prev)
    ensures Abs(r - raw) == 0.8 * Abs(prev - raw)
    ensures r == prev <==> raw == prev
  {
    raw * SmoothingFactor + prev * (1.0 - SmoothingFactor)
  }

  /** The smoothed value after `n` frames whose raw sample is constantly `raw`. */
  function SmoothedAfter(prev: real, raw: real, n: nat): real {
    if n == 0 then prev else Smooth(raw, SmoothedAfter(prev, raw, n - 1))
  }

  /** 0.8 to the power `n`: what remains of a gap after `n` smoothing steps. */
  function Decay(n: nat): real { if n == 0 then 1.0 else 0.8 * Decay(n - 1) }

  /** The gap `g` shrunk by 0.8 `n` times over. */
  function Shrunk(g: real, n: nat): real { if n == 0 then g else 0.8 * Shrunk(g, n - 1) }

  /** Shrinking `n` times is multiplying by 0.8 to the power `n`. */
  lemma {:induction false} ShrunkIsDecay(g: real, n: nat)
    ensures Shrunk(g, n) == Decay(n) * g
  {
    if n > 0 {
      ShrunkIsDecay(g, n - 1);
    }
  }

  /** Under constant input the gap to the raw sample shrinks geometrically by 0.8 per frame. */
  lemma {:induction false} SmoothedAfterGap(prev: real, raw: real, n: nat)
    ensures SmoothedAfter(prev, raw, n) - raw == Shrunk(prev - raw, n)
  {
    if n > 0 {
      SmoothedAfterGap(prev, raw, n - 1);
      SmoothGap(raw, SmoothedAfter(prev, raw, n - 1));
    }
  }

  /** One smoothing step takes the gap to the raw sample down to 0.8 of what it was. */
  lemma SmoothGap(raw: real, prev: real)
    ensures Smooth(raw, prev) - raw == 0.8 * (prev - raw)
  {
  }

  /** Under constant input the smoothed value approaches the raw sample monotonically,
      never overshooting it. */
  lemma {:induction false} SmoothedAfterMonotone(prev: real, raw: real, n: nat)
    ensures Abs(SmoothedAfter(prev, raw, n + 1) - raw) <= Abs(SmoothedAfter(prev, raw, n) - raw)
    ensures prev <= raw ==> SmoothedAfter(prev, raw, n) <= SmoothedAfter(prev, raw, n + 1) <= raw
    ensures raw <= prev ==> raw <= SmoothedAfter(prev, raw, n + 1) <= SmoothedAfter(prev, raw, n)
  {
    if n > 0 {
      SmoothedAfterMonotone(prev, raw, n - 1);
    }
  }

  /** Head turned neither left nor right: yaw strictly inside (0.35, 0.65). */
  predicate IsLookingCenter(yaw: real) { yaw > 0.35 && yaw < 0.65 }
  /** Head tilted down (phone use): pitch strictly above 0.65. */
  predicate IsLookingDown(pitch: real) { pitch > 0.65 }
  /** Head tilted up: pitch strictly below 0.25. */
  predicate IsLookingUp(pitch: real) { pitch < 0.25 }

  /** The branch of the focus classifier a face with this smoothed pose takes. */
  datatype PoseBranch = LookingDown | Centred | Elsewhere

  /** Looking down is tested first, then centred-and-level; everything else is a generic
      distraction. */
  function Branch(yaw: real, pitch: real): (b: PoseBranch)
    ensures b == LookingDown <==> pitch > 0.65
    ensures b == Centred <==> 0.35 < yaw < 0.65 && 0.25 <= pitch <= 0.65
    ensures b == Elsewhere <==> pitch <= 0.65 && (yaw <= 0.35 || yaw >= 0.65 || pitch < 0.25)
  {
    if IsLookingDown(pitch) then LookingDown
    else if IsLookingCenter(yaw) && !(IsLookingUp(pitch) || IsLookingDown(pitch)) then Centred
    else Elsewhere
  }

  /** The boundary values of the thresholds: the yaw band is open at both ends, "down"
      needs pitch strictly above 0.65 and "up" strictly below 0.25. */
  lemma BranchBoundaries()
    ensures Branch(0.35, 0.5) == Elsewhere && Branch(0.65, 0.5) == Elsewhere
    ensures Branch(0.5, 0.5) == Centred
    ensures Branch(0.5, 0.65) == Centred && Branch(0.5, 0.6501) == LookingDown
    ensures Branch(0.5, 0.25) == Centred && Branch(0.5, 0.2499) == Elsewhere
  {
  }

  /** A jump of the raw pitch from 0.5 to 0.9 reaches the looking-down branch on the
      third frame, not before. */
  lemma PitchJumpReachesDownOnThirdFrame()
    ensures !IsLookingDown(SmoothedAfter(0.5, 0.9, 2))
    ensures IsLookingDown(SmoothedAfter(0.5, 0.9, 3))
  {
  }

  /** The tracker's focus state; `Loading` only before the models are ready. */
  datatype Status = Loading | Focused | Distracted

  /** The status a face in this branch sets: only the centred branch is focused. */
  function StatusOf(b: PoseBranch): (s: Status)
    ensures s != Loading
    ensures s == Focused <==> b == Centred
  {
    if b == Centred then Focused else Distracted
  }

  /** The message the tracker pushes to the telemetry socket for each frame. */
  datatype Telemetry =
    | PhoneDistraction   // {type: "distraction", distraction_type: "phone", focus_score: 0}
    | FocusedPing        // {type: "focused", focus_score: 100}
    | DistractedPing     // {type: "distracted", focus_score: 50}
    | Away               // the literal string "away": no face in the frame

  /** The `focus_score` field of a JSON record ("away" carries none). */
  function FocusScore(t: Telemetry): (score: int)
    requires t != Away
    ensures score in {0, 50, 100}
  {
    match t
    case PhoneDistraction => 0
    case FocusedPing => 100
    case DistractedPing => 50
  }

  function TelemetryOf(b: PoseBranch): (t: Telemetry)
    ensures t != Away
    ensures FocusScore(t) == 100 <==> b == Centred
    ensures FocusScore(t) == 0 <==> b == LookingDown
  {
    match b
    case LookingDown => PhoneDistraction
    case Centred => FocusedPing
    case Elsewhere => DistractedPing
  }
}

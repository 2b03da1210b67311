/**
 * The technical-training page (app/backend/frontend/training/page.tsx): a
 * user skeleton compared against a professional one, five critical angles
 * that a timer re-rolls around their ideals, and an accuracy score that
 * colours the display.
 */
module Training {

  /** A point in the 3D scene. */
  datatype Vec3 = Vec3(x: real, y: real, z: real)

  /** The keys of `SKELETON_JOINTS`. */
  datatype Joint =
    | Head | Neck | LeftShoulder | RightShoulder | LeftElbow | RightElbow | LeftWrist | RightWrist
    | Spine | LeftHip | RightHip | LeftKnee | RightKnee | LeftAnkle | RightAnkle

  type Skeleton = map<Joint, Vec3>

  /** `SKELETON_JOINTS`: the neutral pose. */
  const Joints: Skeleton := map[
    Head := Vec3(0.0, 1.7, 0.0),
    Neck := Vec3(0.0, 1.5, 0.0),
    LeftShoulder := Vec3(-0.3, 1.4, 0.0),
    RightShoulder := Vec3(0.3, 1.4, 0.0),
    LeftElbow := Vec3(-0.5, 1.1, -0.2),
    RightElbow := Vec3(0.7, 1.2, -0.3),
    LeftWrist := Vec3(-0.6, 0.9, -0.3),
    RightWrist := Vec3(1.0, 1.0, -0.5),
    Spine := Vec3(0.0, 1.0, 0.0),
    LeftHip := Vec3(-0.2, 0.8, 0.0),
    RightHip := Vec3(0.2, 0.8, 0.0),
    LeftKnee := Vec3(-0.3, 0.4, 0.1),
    RightKnee := Vec3(0.3, 0.4, 0.1),
    LeftAnkle := Vec3(-0.3, 0.0, 0.0),
    RightAnkle := Vec3(0.3, 0.0, 0.0)
  ]

  /** `SKELETON_CONNECTIONS`: the bones drawn between joints. */
  const Connections: seq<(Joint, Joint)> := [
    (Head, Neck),
    (Neck, LeftShoulder),
    (Neck, RightShoulder),
    (LeftShoulder, LeftElbow),
    (RightShoulder, RightElbow),
    (LeftElbow, LeftWrist),
    (RightElbow, RightWrist),
    (Neck, Spine),
    (Spine, LeftHip),
    (Spine, RightHip),
    (LeftHip, LeftKnee),
    (RightHip, RightKnee),
    (LeftKnee, LeftAnkle),
    (RightKnee, RightAnkle)
  ]

  /** `PROFESSIONAL_SKELETON`: the neutral pose with four joints moved. */
  const Professional: Skeleton := Joints[
    RightElbow := Vec3(0.6, 1.3, -0.2)][
    RightWrist := Vec3(0.9, 1.1, -0.4)][
    LeftShoulder := Vec3(-0.25, 1.45, 0.0)][
    RightShoulder := Vec3(0.25, 1.45, 0.0)]

  /** Both skeletons place every joint, so no bone end is looked up in vain. */
  lemma SkeletonsPlaceEveryJoint()
    ensures forall j: Joint :: j in Joints && j in Professional
  {
    forall j: Joint ensures j in Joints && j in Professional {
      match j
      case Head => case Neck => case LeftShoulder => case RightShoulder =>
      case LeftElbow => case RightElbow => case LeftWrist => case RightWrist =>
      case Spine => case LeftHip => case RightHip => case LeftKnee =>
      case RightKnee => case LeftAnkle => case RightAnkle =>
    }
  }

  /** Some bone is drawn to or from `j`. */
  predicate EndsBone(j: Joint) {
    exists k :: 0 <= k < |Connections| && (Connections[k].0 == j || Connections[k].1 == j)
  }

  /** The bone that `j` hangs from (the first one for the head). */
  function BoneOf(j: Joint): (k: nat)
    ensures k < |Connections| && (Connections[k].0 == j || Connections[k].1 == j)
  {
    match j
    case Head => 0
    case Neck => 0
    case LeftShoulder => 1
    case RightShoulder => 2
    case LeftElbow => 3
    case RightElbow => 4
    case LeftWrist => 5
    case RightWrist => 6
    case Spine => 7
    case LeftHip => 8
    case RightHip => 9
    case LeftKnee => 10
    case RightKnee => 11
    case LeftAnkle => 12
    case RightAnkle => 13
  }

  /** Every joint ends some bone: none is drawn as a lone sphere. */
  lemma EveryJointIsDrawnAsBone()
    ensures forall j: Joint :: EndsBone(j)
  {
    forall j: Joint ensures EndsBone(j) {
      var k := BoneOf(j);
    }
  }

  /** The professional pose differs from the neutral one at exactly four joints. */
  lemma ProfessionalDiffersAtFourJoints()
    ensures Professional.Keys == Joints.Keys
    ensures forall j :: j in Joints && Professional[j] != Joints[j] <==>
              j in {RightElbow, RightWrist, LeftShoulder, RightShoulder}
  {
  }

  datatype Stroke = Forehand | Backhand | Serve | Volley | Smash

  /**
   * The user skeleton in one animation frame. `wave` and `swing` stand for
   * `Math.sin(time * 2)` and `Math.cos(time * 2)`, `serveWave` for
   * `Math.sin(time * 1.5)`; the clock is not modelled.
   */
  function Pose(stroke: Stroke, wave: real, swing: real, serveWave: real): (r: Skeleton)
    ensures r.Keys == Joints.Keys
    ensures forall j :: j in Joints && r[j] != Joints[j] ==>
      match stroke
      case Forehand => j == RightElbow || j == RightWrist
      case Serve => j == RightElbow || j == RightWrist
      case Backhand => j == LeftElbow || j == LeftWrist
      case _ => false
    ensures stroke == Serve && -1.0 <= serveWave ==> r[RightElbow].y >= 1.3 && r[RightWrist].y >= 1.4
  {
    match stroke
    case Forehand =>
      Joints[RightElbow := Vec3(0.6 + wave * 0.2, 1.2 + swing * 0.1, -0.3)]
            [RightWrist := Vec3(0.9 + wave * 0.3, 1.0 + swing * 0.2, -0.5)]
    case Backhand =>
      Joints[LeftElbow := Vec3(-0.6 + wave * 0.2, 1.2 + swing * 0.1, -0.3)]
            [LeftWrist := Vec3(-0.9 + wave * 0.3, 1.0 + swing * 0.2, -0.5)]
    case Serve =>
      Joints[RightElbow := Vec3(0.4, 1.6 + serveWave * 0.3, -0.1)]
            [RightWrist := Vec3(0.6, 1.8 + serveWave * 0.4, -0.2)]
    case _ => Joints
  }

  /** Volley and smash have no animation: the user skeleton stays in the neutral pose. */
  lemma VolleyAndSmashStayNeutral(wave: real, swing: real, serveWave: real)
    ensures Pose(Volley, wave, swing, serveWave) == Joints
    ensures Pose(Smash, wave, swing, serveWave) == Joints
  {
  }

  /** One critical angle with its target and allowed deviation, in degrees. */
  datatype Angle = Angle(value: real, ideal: real, tolerance: real)

  /** `isAngleCorrect`: within the tolerance either side of the ideal. */
  predicate IsCorrect(a: Angle) {
    (if a.value >= a.ideal then a.value - a.ideal else a.ideal - a.value) <= a.tolerance
  }

  datatype AngleName = Shoulder | Elbow | Wrist | Hip | Knee

  datatype Angles = Angles(shoulder: Angle, elbow: Angle, wrist: Angle, hip: Angle, knee: Angle) {
    function Get(n: AngleName): Angle {
      match n
      case Shoulder => shoulder
      case Elbow => elbow
      case Wrist => wrist
      case Hip => hip
      case Knee => knee
    }
  }

  /** The initial `criticalAngles`. */
  const InitialAngles: Angles := Angles(
    Angle(142.0, 145.0, 10.0),
    Angle(158.0, 160.0, 8.0),
    Angle(178.0, 175.0, 12.0),
    Angle(32.0, 35.0, 15.0),
    Angle(28.0, 30.0, 10.0))

  /** The width of the random band the timer draws each angle from. */
  function Spread(n: AngleName): real {
    match n
    case Shoulder => 20.0
    case Elbow => 16.0
    case Wrist => 24.0
    case Hip => 30.0
    case Knee => 20.0
  }

  /** `ideal + (Math.random() - 0.5) * spread`, keeping ideal and tolerance. */
  function Reroll(a: Angle, roll: real, spread: real): (r: Angle)
    requires 0.0 <= roll < 1.0
    ensures r.ideal == a.ideal && r.tolerance == a.tolerance
    ensures a.ideal - spread / 2.0 <= r.value || spread < 0.0
    ensures r.value < a.ideal + spread / 2.0 || spread <= 0.0
  {
    BandBounds(roll, spread);
    a.(value := a.ideal + (roll - 0.5) * spread)
  }

  /** A draw from [0, 1) shifted by one half and scaled stays within half the spread of zero. */
  lemma BandBounds(roll: real, spread: real)
    requires 0.0 <= roll < 1.0
    ensures spread >= 0.0 ==> -(spread / 2.0) <= (roll - 0.5) * spread
    ensures spread > 0.0 ==> (roll - 0.5) * spread < spread / 2.0
  {
  }

  predicate ValidRolls(rolls: seq<real>) {
    |rolls| == 5 && forall k :: 0 <= k < 5 ==> 0.0 <= rolls[k] < 1.0
  }

  /** One tick of the angle timer; the five random draws come in declaration order. */
  function RerollAngles(prev: Angles, rolls: seq<real>): (r: Angles)
    requires ValidRolls(rolls)
    ensures forall n :: r.Get(n).ideal == prev.Get(n).ideal && r.Get(n).tolerance == prev.Get(n).tolerance
  {
    Angles(
      Reroll(prev.shoulder, rolls[0], Spread(Shoulder)),
      Reroll(prev.elbow, rolls[1], Spread(Elbow)),
      Reroll(prev.wrist, rolls[2], Spread(Wrist)),
      Reroll(prev.hip, rolls[3], Spread(Hip)),
      Reroll(prev.knee, rolls[4], Spread(Knee)))
  }

  /** The angles after a run of timer ticks. */
  function AnglesAfter(ticks: seq<seq<real>>): Angles
    requires forall t :: 0 <= t < |ticks| ==> ValidRolls(ticks[t])
  {
    if ticks == [] then InitialAngles else RerollAngles(AnglesAfter(ticks[..|ticks| - 1]), ticks[|ticks| - 1])
  }

  /** Targets and tolerances never move from their initial values. */
  lemma {:induction false} TargetsNeverMove(ticks: seq<seq<real>>)
    requires forall t :: 0 <= t < |ticks| ==> ValidRolls(ticks[t])
    ensures forall n :: AnglesAfter(ticks).Get(n).ideal == InitialAngles.Get(n).ideal
    ensures forall n :: AnglesAfter(ticks).Get(n).tolerance == InitialAngles.Get(n).tolerance
  {
    if ticks != [] {
      TargetsNeverMove(ticks[..|ticks| - 1]);
    }
  }

  /**
   * Each band is twice its angle's tolerance wide and centred on the ideal,
   * so every angle the page ever shows is marked correct.
   */
  lemma AnglesAlwaysCorrect(ticks: seq<seq<real>>)
    requires forall t :: 0 <= t < |ticks| ==> ValidRolls(ticks[t])
    ensures forall n :: IsCorrect(AnglesAfter(ticks).Get(n))
  {
    if ticks != [] {
      var prev := AnglesAfter(ticks[..|ticks| - 1]);
      TargetsNeverMove(ticks[..|ticks| - 1]);
      forall n ensures Spread(n) == 2.0 * prev.Get(n).tolerance {
      }
    }
  }

  /** `Math.random() * 0.4 + 0.6` */
  function SimulatedAccuracy(roll: real): (r: real)
    requires 0.0 <= roll < 1.0
    ensures 0.6 <= r < 1.0
  {
    roll * 0.4 + 0.6
  }

  const InitialAccuracy: real := 0.7

  /** The accuracy the page can hold: the initial value or a simulated one. */
  ghost predicate Reachable(a: real) {
    a == InitialAccuracy || exists roll :: 0.0 <= roll < 1.0 && a == SimulatedAccuracy(roll)
  }

  /** The phone vibrates when the accuracy drops under one half. */
  predicate Vibrates(a: real) {
    a < 0.5
  }

  /** How the user skeleton is lit in a frame. */
  datatype Glow = SuccessGlow | ErrorPulse | Normal

  function SkeletonGlow(accuracy: real): (r: Glow)
    ensures r == SuccessGlow <==> accuracy > 0.9
    ensures r == ErrorPulse <==> accuracy < 0.5
    ensures r == Normal <==> 0.5 <= accuracy <= 0.9
  {
    if accuracy > 0.9 then SuccessGlow else if accuracy < 0.5 then ErrorPulse else Normal
  }

  /** The accuracy range never goes below 0.6, so neither the red error pulse nor the vibration can happen. */
  lemma ErrorFeedbackUnreachable(a: real)
    requires Reachable(a)
    ensures !Vibrates(a)
    ensures SkeletonGlow(a) != ErrorPulse
  {
  }

  /** The colour of the technique-match score. */
  datatype Colour = Green | Yellow | Red

  function ScoreColour(accuracy: real): (r: Colour)
    ensures r == Green <==> accuracy > 0.9
    ensures r == Yellow <==> 0.7 < accuracy <= 0.9
    ensures r == Red <==> accuracy <= 0.7
  {
    if accuracy > 0.9 then Green else if accuracy > 0.7 then Yellow else Red
  }

  /** The initial accuracy of 0.7 sits on the boundary and shows red, though it is not an error. */
  lemma InitialScoreIsRedButNotError()
    ensures ScoreColour(InitialAccuracy) == Red
    ensures SkeletonGlow(InitialAccuracy) == Normal
  {
  }

  /** `Math.round(accuracy * 100)`: halves round up. */
  function Percent(accuracy: real): (r: int)
    ensures (r as real) - 0.5 <= accuracy * 100.0 < (r as real) + 0.5
  {
    (accuracy * 100.0 + 0.5).Floor
  }
}

/** The two charge-station balance controllers of SwerveSubsystem
    (AutoBalanceClose, AutoBalanceFar) as a pure decision: which axis is
    corrected, and the chassis command that is issued. */
module Balance {

  /** Proportional gain and feed-forward shared by both variants. */
  const KP: real := 0.06
  const KF: real := 0.02
  /** Pitch and roll are level inside the open band (-Band, Band). */
  const Band: real := 6.0
  /** The variants subtract this much from the maximum speed. */
  const SpeedReduction: real := 4.0

  datatype Variant = Close | Far

  /** The angle each variant treats as level. */
  function Centre(v: Variant): real {
    match v
    case Close => 2.25
    case Far => 3.5
  }

  /** Close drives along the correction, Far against it. */
  function Sign(v: Variant): real {
    match v
    case Close => 1.0
    case Far => -1.0
  }

  /** What one call of a balance controller does. */
  datatype Correction = PitchCorrection | RollCorrection | Level

  /** The call to drive(translation, rotation, fieldRelative, isOpenLoop). */
  datatype DriveCall = DriveCall(x: real, y: real, rotation: real, fieldRelative: bool, openLoop: bool)

  predicate InBand(angle: real) {
    angle < Band && angle > -Band
  }

  /** Pitch outside the band is corrected first; roll only when pitch is
      level; both level means no correction. */
  function Decide(pitch: real, roll: real): (c: Correction)
    ensures c == PitchCorrection <==> !InBand(pitch)
    ensures c == RollCorrection <==> InBand(pitch) && !InBand(roll)
    ensures c == Level <==> InBand(pitch) && InBand(roll)
  {
    if !InBand(pitch) then PitchCorrection
    else if !InBand(roll) then RollCorrection
    else Level
  }

  /** error * kP + kF for an angle measured against the variant's centre. */
  function Output(v: Variant, angle: real): (output: real)
    ensures angle == Centre(v) ==> output == KF
    ensures angle > Centre(v) <==> output > KF
  {
    (angle - Centre(v)) * KP + KF
  }

  /** The chassis command one call issues: the correction of the chosen
      axis, scaled by maxSpeed - 4, in the x component only; always
      field-relative and open-loop. */
  function Command(v: Variant, pitch: real, roll: real, maxSpeed: real): (call: DriveCall)
    ensures call.y == 0.0 && call.rotation == 0.0
    ensures call.fieldRelative && call.openLoop
    ensures Decide(pitch, roll) == Level ==> call.x == 0.0
  {
    var scale := maxSpeed - SpeedReduction;
    match Decide(pitch, roll)
    case PitchCorrection => DriveCall(Sign(v) * Output(v, pitch) * scale, 0.0, 0.0, true, true)
    case RollCorrection => DriveCall(Sign(v) * Output(v, roll) * scale, 0.0, 0.0, true, true)
    case Level => DriveCall(0.0, 0.0, 0.0, true, true)
  }

  /** With pitch outside the band roll is never consulted. */
  lemma PitchDominates(v: Variant, pitch: real, roll1: real, roll2: real, maxSpeed: real)
    requires !InBand(pitch)
    ensures Command(v, pitch, roll1, maxSpeed) == Command(v, pitch, roll2, maxSpeed)
    ensures Command(v, pitch, roll1, maxSpeed).x == Sign(v) * ((pitch - Centre(v)) * 0.06 + 0.02) * (maxSpeed - 4.0)
  {
  }

  /** With pitch level the roll correction is the pitch formula applied to
      roll, whatever the exact pitch. */
  lemma RollWhenPitchLevel(v: Variant, pitch1: real, pitch2: real, roll: real, maxSpeed: real)
    requires InBand(pitch1) && InBand(pitch2) && !InBand(roll)
    ensures Command(v, pitch1, roll, maxSpeed) == Command(v, pitch2, roll, maxSpeed)
    ensures Command(v, pitch1, roll, maxSpeed).x == Sign(v) * ((roll - Centre(v)) * 0.06 + 0.02) * (maxSpeed - 4.0)
  {
  }

  /** Level in both axes gives the zero command, in both variants. */
  lemma LevelIsStill(v: Variant, pitch: real, roll: real, maxSpeed: real)
    requires InBand(pitch) && InBand(roll)
    ensures Command(v, pitch, roll, maxSpeed) == DriveCall(0.0, 0.0, 0.0, true, true)
  {
  }

  /** The variants differ only by centre and sign: whenever an axis is
      corrected, the two x commands add up to (3.5 - 2.25) * kP * (maxSpeed - 4). */
  lemma CloseFarRelation(pitch: real, roll: real, maxSpeed: real)
    ensures Decide(pitch, roll) != Level ==>
      Command(Close, pitch, roll, maxSpeed).x + Command(Far, pitch, roll, maxSpeed).x == 0.075 * (maxSpeed - 4.0)
    ensures Decide(pitch, roll) == Level ==>
      Command(Close, pitch, roll, maxSpeed) == Command(Far, pitch, roll, maxSpeed)
  {
  }

  /** Outside the band the Close command has the sign of the corrected
      angle and the Far command the opposite sign: with maxSpeed above 4, an
      angle of at least 6 degrees gives a positive Close x and a negative
      Far x, and an angle of at most -6 degrees the reverse. */
  lemma CorrectionDirection(pitch: real, roll: real, maxSpeed: real)
    requires maxSpeed > SpeedReduction
    requires Decide(pitch, roll) != Level
    ensures var a := if !InBand(pitch) then pitch else roll;
      (a >= Band ==> Command(Close, pitch, roll, maxSpeed).x > 0.0 && Command(Far, pitch, roll, maxSpeed).x < 0.0) &&
      (a <= -Band ==> Command(Close, pitch, roll, maxSpeed).x < 0.0 && Command(Far, pitch, roll, maxSpeed).x > 0.0)
  {
  }
}

/** The gyro yaw conversions of SwerveSubsystem: getYaw, the optional
    inversion of the raw gyro yaw, and getNominalYaw, the wrap of an
    unbounded yaw into one turn. Degrees are modelled as reals. */
module GyroYaw {

  /** One full turn, in degrees. */
  const FullTurn: real := 360.0

  /** Java's Math.round on a double: the nearest integer, halves rounded up. */
  function Round(v: real): (n: int)
    ensures n as real - 0.5 <= v < n as real + 0.5
  {
    (v + 0.5).Floor
  }

  /** `d` is a whole number of turns: a multiple of 360 degrees. */
  predicate WholeTurns(d: real) {
    (d / FullTurn).Floor as real == d / FullTurn
  }

  /** The yaw the rest of the subsystem sees: the raw gyro yaw, or
      360 minus it when the gyro is mounted inverted. */
  function Yaw(raw: real, invertGyro: bool): (deg: real)
    ensures invertGyro ==> deg + raw == FullTurn
    ensures !invertGyro ==> deg == raw
  {
    if invertGyro then FullTurn - raw else raw
  }

  /** getNominalYaw: `rotations` is the rounded number of turns in the
      yaw; a negative yaw is reflected, reduced by whole turns when it
      exceeds one turn, lifted by a turn when that overshoots, and reflected
      back; a non-negative yaw is reduced by whole turns and lifted by a turn
      when that overshoots. */
  function NominalYaw(realYaw: real): (nomYaw: real)
    ensures 0.0 <= nomYaw <= FullTurn
    ensures realYaw >= 0.0 ==> nomYaw < FullTurn
  {
    var rotations := Round(realYaw / FullTurn) as real;
    if realYaw < 0.0 then
      var reflected := -realYaw;
      var reduced := if reflected > FullTurn then reflected + FullTurn * rotations else reflected;
      var lifted := if reduced < 0.0 then reduced + FullTurn else reduced;
      FullTurn - lifted
    else
      var reduced := realYaw - FullTurn * rotations;
      if reduced < 0.0 then reduced + FullTurn else reduced
  }

  lemma WholeTurnsOf(k: int)
    ensures WholeTurns(FullTurn * k as real)
  {
  }

  /** A whole number of turns is 360 times some integer. */
  lemma WholeTurnsInteger(d: real) returns (k: int)
    requires WholeTurns(d)
    ensures d == FullTurn * k as real
  {
    k := (d / FullTurn).Floor;
  }

  /** The nominal yaw points the same way as the input: they differ by a
      whole number of turns. */
  lemma NominalYawCongruent(realYaw: real)
    ensures WholeTurns(NominalYaw(realYaw) - realYaw)
  {
    var rotations := Round(realYaw / FullTurn);
    var r := NominalYaw(realYaw);
    if realYaw < 0.0 {
      var reflected := -realYaw;
      var reduced := if reflected > FullTurn then reflected + FullTurn * rotations as real else reflected;
      var k := if reflected > FullTurn then -rotations else 0;
      if reduced < 0.0 {
        assert r - realYaw == FullTurn * k as real;
        WholeTurnsOf(k);
      } else {
        assert r - realYaw == FullTurn * (k + 1) as real;
        WholeTurnsOf(k + 1);
      }
    } else {
      var reduced := realYaw - FullTurn * rotations as real;
      if reduced < 0.0 {
        assert r - realYaw == FullTurn * (1 - rotations) as real;
        WholeTurnsOf(1 - rotations);
      } else {
        assert r - realYaw == FullTurn * (-rotations) as real;
        WholeTurnsOf(-rotations);
      }
    }
  }

  /** The nominal yaw is exactly one full turn precisely for the negative
      multiples of 360 at or below -720: -360 itself gives 0. */
  lemma NominalYawFullTurn(realYaw: real)
    ensures NominalYaw(realYaw) == FullTurn <==> realYaw <= -2.0 * FullTurn && WholeTurns(realYaw)
  {
    var rotations := Round(realYaw / FullTurn);
    assert rotations as real - 0.5 <= realYaw / FullTurn < rotations as real + 0.5;
    if realYaw <= -2.0 * FullTurn && WholeTurns(realYaw) {
      var k := WholeTurnsInteger(realYaw);
      assert realYaw / FullTurn == k as real;
      assert rotations == k;
    }
    if NominalYaw(realYaw) == FullTurn {
      assert realYaw < 0.0;
      assert realYaw == FullTurn * rotations as real;
      WholeTurnsOf(rotations);
    }
  }

  /** Worked values: -720 wraps to a full turn, -360 to zero, -10 to 350
      and 370 to 10. */
  lemma NominalYawExamples()
    ensures NominalYaw(-720.0) == 360.0
    ensures NominalYaw(-360.0) == 0.0
    ensures NominalYaw(-10.0) == 350.0
    ensures NominalYaw(370.0) == 10.0
  {
    assert Round(-720.0 / FullTurn) == -2;
    assert Round(-360.0 / FullTurn) == -1;
    assert Round(-10.0 / FullTurn) == 0;
    assert Round(370.0 / FullTurn) == 1;
  }

  /** With the gyro inverted, the nominal yaw points the opposite way to
      the raw yaw: the two add up to a whole number of turns. */
  lemma InvertedNominalYaw(raw: real)
    ensures WholeTurns(NominalYaw(Yaw(raw, true)) + raw)
  {
    NominalYawCongruent(Yaw(raw, true));
    var k := WholeTurnsInteger(NominalYaw(Yaw(raw, true)) - Yaw(raw, true));
    WholeTurnsOf(k + 1);
  }
}

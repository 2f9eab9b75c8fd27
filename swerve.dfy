/** The swerve-drive subsystem object: four corner modules, the gyro
    reading buffer, the heading-lock mode, the balance controllers, the
    coast/brake toggle and the per-cycle accumulators of `periodic`.
    Kinematics, odometry and the hardware are outside this model: their
    results enter as parameters and their effects as recorded calls. */
module Swerve {
  import opened HeadingLock
  import opened GyroYaw
  import opened Balance
  import opened Accumulators

  /** What a motor does when it is commanded to zero output. */
  datatype NeutralMode = Brake | Coast

  /** A wheel's speed and steering angle. */
  datatype ModuleState = ModuleState(speed: real, angle: real)

  /** A wheel's travelled distance and steering angle. */
  datatype ModulePosition = ModulePosition(distance: real, angle: real)

  /** The neutral mode that matches the global coast flag. */
  function ModeFor(isCoast: bool): (m: NeutralMode)
    ensures m == Coast <==> isCoast
  {
    if isCoast then Coast else Brake
  }

  /** The same mode on all four drive motors. */
  function AllModes(m: NeutralMode): seq<NeutralMode> {
    [m, m, m, m]
  }

  /** toggleCoast: the drive-motor modes it leaves behind, given whether
      the robot was coasting. */
  function ToggledModes(wasCoast: bool): (modes: seq<NeutralMode>)
    ensures |modes| == 4
    ensures forall i :: 0 <= i < 4 ==> modes[i] == ModeFor(!wasCoast)
  {
    if wasCoast then AllModes(Brake) else AllModes(Coast)
  }

  /** AutoBalanceFar: the drive-motor modes it leaves behind. Only a
      level reading brakes every drive motor. */
  function FarModes(modes: seq<NeutralMode>, pitch: real, roll: real): (modes': seq<NeutralMode>)
    ensures Decide(pitch, roll) == Level ==> modes' == AllModes(Brake)
    ensures Decide(pitch, roll) != Level ==> modes' == modes
  {
    if !InBand(pitch) then modes
    else if !InBand(roll) then modes
    else AllModes(Brake)
  }

  /** The coast flag together with the four drive-motor modes. */
  datatype CoastState = CoastState(isCoast: bool, modes: seq<NeutralMode>)

  /** toggleCoast on the flag and the modes: the flag is negated and every
      drive motor takes the mode of the new flag. */
  function Toggle(s: CoastState): (s': CoastState)
    ensures s'.isCoast == !s.isCoast
    ensures s'.modes == AllModes(ModeFor(s'.isCoast))
  {
    CoastState(!s.isCoast, ToggledModes(s.isCoast))
  }

  /** Toggling twice restores the flag, and whatever the modes were before,
      they now agree with it. */
  lemma ToggleTwice(s: CoastState)
    ensures Toggle(Toggle(s)).isCoast == s.isCoast
    ensures Toggle(Toggle(s)).modes == AllModes(ModeFor(s.isCoast))
    ensures s.modes == AllModes(ModeFor(s.isCoast)) ==> Toggle(Toggle(s)) == s
  {
  }

  /** Calling AutoBalanceFar again on the same reading changes no mode. */
  lemma FarModesIdempotent(modes: seq<NeutralMode>, pitch: real, roll: real)
    ensures FarModes(FarModes(modes, pitch, roll), pitch, roll) == FarModes(modes, pitch, roll)
  {
  }

  /** A TalonFX motor controller: its neutral mode and its temperature
      sensor reading. */
  class Motor {
    var neutralMode: NeutralMode
    var temperature: real

    constructor (mode: NeutralMode, temperature: real)
      ensures neutralMode == mode && this.temperature == temperature
    {
      neutralMode := mode;
      this.temperature := temperature;
    }

    method SetNeutralMode(mode: NeutralMode)
      modifies this`neutralMode
      ensures neutralMode == mode
    {
      neutralMode := mode;
    }
  }

  /** One corner module: its fixed number, its drive and steering motors,
      its measured state and position (hardware feedback) and the last
      state it was asked to reach. */
  class SwerveModule {
    const moduleNumber: nat
    const driveMotor: Motor
    const angleMotor: Motor
    var state: ModuleState
    var position: ModulePosition
    var desired: ModuleState
    var openLoop: bool

    constructor (moduleNumber: nat, driveMode: NeutralMode)
      ensures this.moduleNumber == moduleNumber
      ensures fresh(driveMotor) && fresh(angleMotor) && driveMotor != angleMotor
      ensures driveMotor.neutralMode == driveMode
    {
      this.moduleNumber := moduleNumber;
      driveMotor := new Motor(driveMode, 0.0);
      angleMotor := new Motor(Brake, 0.0);
      state := ModuleState(0.0, 0.0);
      position := ModulePosition(0.0, 0.0);
      desired := ModuleState(0.0, 0.0);
      openLoop := false;
    }

    /** setDesiredState, as far as this model sees it: the request is
        recorded; the steering optimisation and motor output are not
        modelled. */
    method SetDesiredState(s: ModuleState, isOpenLoop: bool)
      modifies this`desired, this`openLoop
      ensures desired == s && openLoop == isOpenLoop
    {
      desired := s;
      openLoop := isOpenLoop;
    }
  }

  /** The robot-wide mutable globals this subsystem writes. */
  class GlobalVariables {
    var isCoast: bool
    var swerveRuntime: real
    var avgMotorTemp: real

    constructor ()
      ensures !isCoast && swerveRuntime == 0.0 && avgMotorTemp == 0.0
    {
      isCoast := false;
      swerveRuntime := 0.0;
      avgMotorTemp := 0.0;
    }
  }

  class SwerveSubsystem {
    const mods: array<SwerveModule>
    /** Yaw, pitch and roll as last read from the gyro. */
    const ypr: array<real>
    const globals: GlobalVariables
    /** Configuration constants. */
    const maxSpeed: real
    const invertGyro: bool

    var headingState: HeadingState
    var pitch: real
    var roll: real
    /** The pose seen in the previous cycle. */
    var initialX: real
    var initialY: real
    var initialDist: real
    var avgMotorTemp: real
    /** Every drive(...) call issued, oldest first. */
    var driveLog: seq<DriveCall>

    /** Four modules numbered by their slot, each with its own two motors. */
    ghost predicate Valid()
      reads this, mods
    {
      mods.Length == 4 && ypr.Length == 3 &&
      (forall i :: 0 <= i < 4 ==> mods[i].moduleNumber == i) &&
      (forall i, j :: 0 <= i < 4 && 0 <= j < 4 ==> mods[i].driveMotor != mods[j].angleMotor) &&
      (forall i, j :: 0 <= i < j < 4 ==> mods[i].driveMotor != mods[j].driveMotor) &&
      (forall i, j :: 0 <= i < j < 4 ==> mods[i].angleMotor != mods[j].angleMotor)
    }

    ghost function Modules(): set<SwerveModule>
      reads this, mods
      requires Valid()
    {
      {mods[0], mods[1], mods[2], mods[3]}
    }

    ghost function DriveMotors(): set<Motor>
      reads this, mods
      requires Valid()
    {
      {mods[0].driveMotor, mods[1].driveMotor, mods[2].driveMotor, mods[3].driveMotor}
    }

    ghost function AngleMotors(): set<Motor>
      reads this, mods
      requires Valid()
    {
      {mods[0].angleMotor, mods[1].angleMotor, mods[2].angleMotor, mods[3].angleMotor}
    }

    /** The neutral modes of the four drive motors, by module number. */
    ghost function Modes(): seq<NeutralMode>
      reads this, mods, DriveMotors()
      requires Valid()
    {
      [mods[0].driveMotor.neutralMode, mods[1].driveMotor.neutralMode,
       mods[2].driveMotor.neutralMode, mods[3].driveMotor.neutralMode]
    }

    /** The eight motor temperatures in the order `periodic` adds them:
        drive then steering, module by module. */
    ghost function Temps(): seq<real>
      reads this, mods, DriveMotors(), AngleMotors()
      requires Valid()
    {
      [mods[0].driveMotor.temperature, mods[0].angleMotor.temperature,
       mods[1].driveMotor.temperature, mods[1].angleMotor.temperature,
       mods[2].driveMotor.temperature, mods[2].angleMotor.temperature,
       mods[3].driveMotor.temperature, mods[3].angleMotor.temperature]
    }

    /** The runtime tracker held in the fields and globals. */
    ghost function Tracked(): Tracker
      reads this, globals
    {
      Tracker(initialX, initialY, initialDist, globals.swerveRuntime)
    }

    /** The four modules of the constructor, numbered 0 to 3 in order. */
    static method NewModules(driveMode: NeutralMode) returns (modules: array<SwerveModule>)
      ensures fresh(modules) && modules.Length == 4
      ensures forall i :: 0 <= i < 4 ==> modules[i].moduleNumber == i
      ensures forall i :: 0 <= i < 4 ==> fresh(modules[i].driveMotor) && fresh(modules[i].angleMotor)
      ensures forall i :: 0 <= i < 4 ==> modules[i].driveMotor.neutralMode == driveMode
      ensures forall i, j :: 0 <= i < 4 && 0 <= j < 4 ==> modules[i].driveMotor != modules[j].angleMotor
      ensures forall i, j :: 0 <= i < j < 4 ==> modules[i].driveMotor != modules[j].driveMotor
      ensures forall i, j :: 0 <= i < j < 4 ==> modules[i].angleMotor != modules[j].angleMotor
    {
      var m0 := new SwerveModule(0, driveMode);
      var m1 := new SwerveModule(1, driveMode);
      var m2 := new SwerveModule(2, driveMode);
      var m3 := new SwerveModule(3, driveMode);
      modules := new SwerveModule[4][m0, m1, m2, m3];
    }

    constructor (globals: GlobalVariables, maxSpeed: real, invertGyro: bool, driveMode: NeutralMode)
      ensures Valid() && fresh(mods) && fresh(ypr) && fresh(DriveMotors()) && fresh(AngleMotors())
      ensures this.globals == globals && this.maxSpeed == maxSpeed && this.invertGyro == invertGyro
      ensures headingState == Initial
      ensures pitch == 0.0 && roll == 0.0
      ensures initialX == 0.0 && initialY == 0.0 && initialDist == 0.0
      ensures avgMotorTemp == 0.0 && driveLog == []
      ensures ypr[..] == [0.0, 0.0, 0.0]
      ensures Modes() == AllModes(driveMode)
    {
      var sample := new real[3](_ => 0.0);
      assert sample[..] == [0.0, 0.0, 0.0];
      ypr := sample;
      var modules := NewModules(driveMode);
      mods := modules;
      this.globals := globals;
      this.maxSpeed := maxSpeed;
      this.invertGyro := invertGyro;
      headingState := Free;
      pitch, roll := 0.0, 0.0;
      initialX, initialY, initialDist := 0.0, 0.0, 0.0;
      avgMotorTemp := 0.0;
      driveLog := [];
    }

    /** getYaw: the gyro yaw in the subsystem's convention. */
    function GetYaw(): (deg: real)
      reads this, mods, ypr
      requires Valid()
      ensures invertGyro ==> deg == FullTurn - ypr[0]
      ensures !invertGyro ==> deg == ypr[0]
    {
      Yaw(ypr[0], invertGyro)
    }

    /** getNominalYaw: the yaw wrapped into one turn, pointing the same way. */
    function GetNominalYaw(): (deg: real)
      reads this, mods, ypr
      requires Valid()
      ensures 0.0 <= deg <= FullTurn
      ensures GetYaw() >= 0.0 ==> deg < FullTurn
      ensures WholeTurns(deg - GetYaw())
    {
      NominalYawCongruent(GetYaw());
      NominalYaw(GetYaw())
    }

    /** drive: the chassis command is handed on to the kinematics, which
        this model does not include; the call itself is recorded. */
    method Drive(x: real, y: real, rotation: real, fieldRelative: bool, isOpenLoop: bool)
      modifies this`driveLog
      ensures driveLog == old(driveLog) + [DriveCall(x, y, rotation, fieldRelative, isOpenLoop)]
    {
      driveLog := driveLog + [DriveCall(x, y, rotation, fieldRelative, isOpenLoop)];
    }

    /** The dispatch loop of drive and setModuleStates: module number i
        receives slot i of the (already desaturated) states. */
    method DispatchStates(states: array<ModuleState>, isOpenLoop: bool)
      requires Valid() && states.Length == 4
      modifies Modules()
      ensures Valid()
      ensures forall i :: 0 <= i < 4 ==> mods[i].desired == states[mods[i].moduleNumber]
      ensures forall i :: 0 <= i < 4 ==> mods[i].openLoop == isOpenLoop
      ensures forall i :: 0 <= i < 4 ==> mods[i].state == old(mods[i].state) && mods[i].position == old(mods[i].position)
    {
      for i := 0 to 4
        invariant forall k :: 0 <= k < i ==> mods[k].desired == states[k] && mods[k].openLoop == isOpenLoop
        invariant forall k :: 0 <= k < 4 ==> mods[k].state == old(mods[k].state) && mods[k].position == old(mods[k].position)
      {
        var mod := mods[i];
        mod.SetDesiredState(states[mod.moduleNumber], isOpenLoop);
      }
    }

    /** getStates: slot i holds the measured state of module number i. */
    method GetStates() returns (states: array<ModuleState>)
      requires Valid()
      ensures fresh(states) && states.Length == 4
      ensures forall i :: 0 <= i < 4 ==> states[mods[i].moduleNumber] == mods[i].state
    {
      states := new ModuleState[4](_ => ModuleState(0.0, 0.0));
      for i := 0 to 4
        invariant forall k :: 0 <= k < i ==> states[mods[k].moduleNumber] == mods[k].state
      {
        var mod := mods[i];
        states[mod.moduleNumber] := mod.state;
      }
    }

    /** getModulePositions: slot i holds the position of module number i. */
    method GetModulePositions() returns (positions: array<ModulePosition>)
      requires Valid()
      ensures fresh(positions) && positions.Length == 4
      ensures forall i :: 0 <= i < 4 ==> positions[mods[i].moduleNumber] == mods[i].position
    {
      positions := new ModulePosition[4](_ => ModulePosition(0.0, 0.0));
      for i := 0 to 4
        invariant forall k :: 0 <= k < i ==> positions[mods[k].moduleNumber] == mods[k].position
      {
        var mod := mods[i];
        positions[mod.moduleNumber] := mod.position;
      }
    }

    /** setHeadingState: advance the heading-lock mode one step. */
    method SetHeadingState()
      modifies this`headingState
      ensures headingState == Advance(old(headingState))
    {
      if headingState == Forward {
        headingState := Backward;
        return;
      } else if headingState == Backward {
        headingState := Free;
        return;
      } else if headingState == Free {
        headingState := Forward;
        return;
      }
    }

    /** freeHeadingState: force the heading-lock mode to FREE. */
    method FreeHeadingState()
      modifies this`headingState
      ensures headingState == Release(old(headingState))
    {
      headingState := Free;
    }

    /** toggleCoast: flip the global coast flag and put every drive motor
        in the matching neutral mode. */
    method ToggleCoast()
      requires Valid()
      modifies globals`isCoast, DriveMotors()
      ensures globals.isCoast == !old(globals.isCoast)
      ensures Valid()
      ensures CoastState(globals.isCoast, Modes()) == Toggle(CoastState(old(globals.isCoast), old(Modes())))
      ensures Temps() == old(Temps())
    {
      var mode := if globals.isCoast then Brake else Coast;
      for i := 0 to 4
        modifies DriveMotors()
        invariant forall k :: 0 <= k < i ==> mods[k].driveMotor.neutralMode == mode
        invariant Temps() == old(Temps())
      {
        mods[i].driveMotor.SetNeutralMode(mode);
      }
      globals.isCoast := !globals.isCoast;
    }

    /** BalanceBrake: a slow sideways creep at 0.05 of the maximum speed. */
    method BalanceBrake()
      modifies this`driveLog
      ensures driveLog == old(driveLog) + [DriveCall(0.0 * maxSpeed, 0.05 * maxSpeed, 0.0, true, true)]
    {
      Drive(0.0 * maxSpeed, 0.05 * maxSpeed, 0.0, true, true);
    }

    /** AutoBalanceClose: issue the Close command; no motor mode changes. */
    method AutoBalanceClose()
      requires Valid()
      modifies this`driveLog
      ensures Valid()
      ensures driveLog == old(driveLog) + [Command(Close, pitch, roll, maxSpeed)]
      ensures Modes() == old(Modes())
    {
      var kP := 0.06;
      var kF := 0.02;
      var outputP := (pitch - 2.25) * kP + kF;
      var outputR := (roll - 2.25) * kP + kF;
      if !(pitch < 6.0 && pitch > -6.0) {
        assert Command(Close, pitch, roll, maxSpeed).x == outputP * (maxSpeed - 4.0);
        Drive(outputP * (maxSpeed - 4.0), 0.0, 0.0, true, true);
        return;
      }
      if !(roll < 6.0 && roll > -6.0) {
        assert Command(Close, pitch, roll, maxSpeed).x == outputR * (maxSpeed - 4.0);
        Drive(outputR * (maxSpeed - 4.0), 0.0, 0.0, true, true);
        return;
      }
      Drive(0.0, 0.0, 0.0, true, true);
    }

    /** AutoBalanceFar: issue the Far command; when level, also brake every
        drive motor. */
    method AutoBalanceFar()
      requires Valid()
      modifies this`driveLog, DriveMotors()
      ensures Valid()
      ensures driveLog == old(driveLog) + [Command(Far, pitch, roll, maxSpeed)]
      ensures Modes() == FarModes(old(Modes()), pitch, roll)
      ensures Temps() == old(Temps())
    {
      var kP := 0.06;
      var kF := 0.02;
      var outputP := (pitch - 3.5) * kP + kF;
      var outputR := (roll - 3.5) * kP + kF;
      if !(pitch < 6.0 && pitch > -6.0) {
        assert Command(Far, pitch, roll, maxSpeed).x == -outputP * (maxSpeed - 4.0);
        Drive(-outputP * (maxSpeed - 4.0), 0.0, 0.0, true, true);
        return;
      }
      if !(roll < 6.0 && roll > -6.0) {
        assert Command(Far, pitch, roll, maxSpeed).x == -outputR * (maxSpeed - 4.0);
        Drive(-outputR * (maxSpeed - 4.0), 0.0, 0.0, true, true);
        return;
      }
      Drive(0.0, 0.0, 0.0, true, true);
      for i := 0 to 4
        modifies DriveMotors()
        invariant forall k :: 0 <= k < i ==> mods[k].driveMotor.neutralMode == Brake
        invariant Temps() == old(Temps())
      {
        mods[i].driveMotor.SetNeutralMode(Brake);
      }
    }

    /** The gyro read at the start of periodic: the sample lands in ypr,
        and pitch and roll are copied out of it. */
    method ReadGyro(yaw: real, pitchReading: real, rollReading: real)
      requires Valid()
      modifies ypr, this`pitch, this`roll
      ensures Valid()
      ensures ypr[..] == [yaw, pitchReading, rollReading]
      ensures pitch == pitchReading && roll == rollReading
    {
      ypr[0], ypr[1], ypr[2] := yaw, pitchReading, rollReading;
      assert ypr[..] == [yaw, pitchReading, rollReading];
      pitch := ypr[1];
      roll := ypr[2];
    }

    /** The runtime part of periodic: add one loop period when x, y or the
        distance from the origin grew by at least the threshold, then
        remember the current pose. */
    method UpdateRuntime(currX: real, currY: real, currDist: real)
      modifies this`initialX, this`initialY, this`initialDist, globals`swerveRuntime
      ensures Tracked() == Step(old(Tracked()), Sample(currX, currY, currDist))
    {
      if (currX - initialX) >= 0.05 || (currY - initialY) >= 0.05 || (currDist - initialDist) >= 0.05 {
        globals.swerveRuntime := globals.swerveRuntime + 0.03;
      }
      initialX := currX;
      initialY := currY;
      initialDist := currDist;
    }

    /** The temperature part of periodic: the eight temperatures are added
        onto the previous value, which is never cleared, and the total is
        divided by eight. */
    method AccumulateTemperature()
      requires Valid()
      modifies this`avgMotorTemp, globals`avgMotorTemp
      ensures Valid()
      ensures avgMotorTemp == TempStep(old(avgMotorTemp), Temps())
      ensures globals.avgMotorTemp == avgMotorTemp
    {
      ghost var temps := Temps();
      for i := 0 to 4
        modifies this`avgMotorTemp
        invariant avgMotorTemp == old(avgMotorTemp) + Sum(temps[..2 * i])
      {
        SumPrefix(temps, 2 * i);
        SumPrefix(temps, 2 * i + 1);
        avgMotorTemp := avgMotorTemp + mods[i].driveMotor.temperature;
        avgMotorTemp := avgMotorTemp + mods[i].angleMotor.temperature;
      }
      assert temps[..8] == temps;
      avgMotorTemp := avgMotorTemp / 8.0;
      globals.avgMotorTemp := avgMotorTemp;
    }

    /** The accumulator part of periodic: read the gyro, update the runtime
        from the pose (x, y) the odometry reports and its distance from the
        origin, then fold the eight motor temperatures into the average. */
    method Periodic(yaw: real, pitchReading: real, rollReading: real, x: real, y: real, dist: real)
      requires Valid() && IsDistance(x, y, dist)
      modifies ypr, this`pitch, this`roll, this`initialX, this`initialY, this`initialDist, this`avgMotorTemp
      modifies globals`swerveRuntime, globals`avgMotorTemp
      ensures Valid()
      ensures ypr[..] == [yaw, pitchReading, rollReading]
      ensures pitch == pitchReading && roll == rollReading
      ensures Tracked() == Step(old(Tracked()), Sample(x, y, dist))
      ensures avgMotorTemp == TempStep(old(avgMotorTemp), Temps())
      ensures globals.avgMotorTemp == avgMotorTemp
    {
      ReadGyro(yaw, pitchReading, rollReading);
      UpdateRuntime(x, y, dist);
      AccumulateTemperature();
    }
  }
}

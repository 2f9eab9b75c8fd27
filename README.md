# Swerve subsystem model

This is a Dafny model of the decision logic in `SwerveSubsystem`, the subsystem of a four-module swerve drivetrain. The model covers these parts:

- the heading-lock mode (FORWARD / BACKWARD / FREE) and its two operator operations;
- the gyro yaw conversions: the optional inversion `360 - raw`, and the wrap of an unbounded yaw into one turn;
- the two charge-station balance controllers (Close and Far). Each picks the pitch or the roll correction or neither, issues one `drive` call, and in the Far variant brakes the drive motors once the robot is level;
- the coast/brake toggle over the four drive motors and the global coast flag;
- the per-cycle accumulators of `periodic`: the gyro sample, the `swerveRuntime` counter and the average motor temperature;
- the module-index dispatch and gather loops (`drive`/`setModuleStates` dispatch, `getStates`, `getModulePositions`).

Doubles are modelled as `real`, and `Math.round(v)` as `Floor(v + 1/2)`.

Files:

- `heading.dfy` (module `HeadingLock`): the mode and its transition functions, with lemmas.
- `yaw.dfy` (module `GyroYaw`): getYaw and getNominalYaw as functions, with lemmas.
- `balance.dfy` (module `Balance`): the balance decision and the command it issues, with lemmas.
- `accumulators.dfy` (module `Accumulators`): the runtime tracker and the temperature step as functions, with lemmas.
- `swerve.dfy` (module `Swerve`): the classes.
  - `SwerveSubsystem` holds the modules array, the `ypr` array, the fields and a reference to the globals.
  - Its methods are proved against the functions above.
  - `SwerveModule` and `Motor` carry only the state those methods read or write.
  - `GlobalVariables` holds the robot-wide flags.

Behaviour of the code worth knowing:

- The nominal yaw can be exactly 360. For −720, −1080, … the negative branch reflects to a multiple of 360, reduces it to 0 and reflects back to 360. So the range is [0, 360], not [0, 360). For non-negative yaw it is [0, 360).
- The runtime accumulator compares signed increases, not absolute changes. A cycle in which x, y and the distance all stay level or shrink adds nothing (`NoIncreaseNoRuntime`). For example, driving from (a, 0) to (b, 0) with a ≥ b ≥ 0 adds nothing (`ShrinkingPositiveXNotCounted`), while the same approach from (−1, 0) to (−0.5, 0) is counted because x grows (`ApproachFromNegativeXCounted`).
- The temperature accumulator is never cleared before the eight readings are added. Each cycle therefore yields `(previous + sum)/8`, which is the mean plus one eighth of the previous value. Under steady readings T it settles at 8T/7, not T.
- Both balance variants use the same ±6 band; they differ only in the centre (2.25 vs 3.5) and the sign. The roll correction is issued in the x component, like the pitch correction, not as a lateral command.

## Model

| member | source | states |
|---|---|---|
| HeadingLock.Advance | java/frc/robot/subsystems/SwerveSubsystem.java:166-177 | FORWARD goes to BACKWARD, BACKWARD to FREE and FREE to FORWARD (each an if-and-only-if), and the mode always changes |
| HeadingLock.Release | java/frc/robot/subsystems/SwerveSubsystem.java:179-181 | freeHeadingState yields FREE from any mode |
| HeadingLock.AdvanceThreeTimes | java/frc/robot/subsystems/SwerveSubsystem.java:166-177 | three advances return to the starting mode from every mode; one or two advances do not |
| HeadingLock.AdvancePeriodic | java/frc/robot/subsystems/SwerveSubsystem.java:166-177 | n advances land where n mod 3 advances do |
| HeadingLock.ReleaseResets | java/frc/robot/subsystems/SwerveSubsystem.java:179-181 | releasing is idempotent, and releasing after any number of advances gives the initial mode FREE |
| Swerve.SwerveSubsystem.SetHeadingState | java/frc/robot/subsystems/SwerveSubsystem.java:166-177 | the mode field becomes Advance of its old value; nothing else changes |
| Swerve.SwerveSubsystem.FreeHeadingState | java/frc/robot/subsystems/SwerveSubsystem.java:179-181 | the mode field becomes FREE; nothing else changes |
| Swerve.SwerveSubsystem.constructor | java/frc/robot/subsystems/SwerveSubsystem.java:55-70 | the subsystem starts valid, with heading mode FREE, pitch and roll 0, a zero previous pose, an empty drive log, a zeroed ypr buffer, and four modules numbered 0..3 in slot order |
| Swerve.SwerveSubsystem.NewModules | java/frc/robot/subsystems/SwerveSubsystem.java:61-66 | four fresh modules with numbers 0, 1, 2, 3 in order, each with its own distinct fresh drive and steering motors |
| GyroYaw.Round | java/frc/robot/subsystems/SwerveSubsystem.java:135 | Math.round gives the integer n with n − 1/2 ≤ v < n + 1/2 |
| GyroYaw.Yaw | java/frc/robot/subsystems/SwerveSubsystem.java:154-156 | the yaw is 360 − raw when the gyro is inverted and raw otherwise |
| GyroYaw.InvertedNominalYaw | java/frc/robot/subsystems/SwerveSubsystem.java:133-156 | with the gyro inverted, the nominal yaw and the raw yaw add up to a whole number of turns: the nominal yaw points opposite to the raw yaw |
| Swerve.SwerveSubsystem.GetYaw | java/frc/robot/subsystems/SwerveSubsystem.java:154-156 | getYaw is 360 − ypr[0] when invertGyro is set and ypr[0] otherwise |
| GyroYaw.NominalYaw | java/frc/robot/subsystems/SwerveSubsystem.java:133-152 | the nominal yaw lies in [0, 360]; for non-negative input it lies in [0, 360) |
| GyroYaw.NominalYawCongruent | java/frc/robot/subsystems/SwerveSubsystem.java:133-152 | the nominal yaw differs from the input by a whole number of turns (it is congruent modulo 360) |
| GyroYaw.NominalYawFullTurn | java/frc/robot/subsystems/SwerveSubsystem.java:136-144 | the nominal yaw equals 360 exactly when the input is a multiple of 360 at or below −720 |
| GyroYaw.NominalYawExamples | java/frc/robot/subsystems/SwerveSubsystem.java:133-152 | −720 maps to 360, −360 to 0, −10 to 350 and 370 to 10 |
| Swerve.SwerveSubsystem.GetNominalYaw | java/frc/robot/subsystems/SwerveSubsystem.java:133-152 | getNominalYaw of the current yaw lies in [0, 360], lies below 360 when the yaw is non-negative, and is congruent to the yaw modulo 360 |
| Balance.Decide | java/frc/robot/subsystems/SwerveSubsystem.java:213-254 | pitch is corrected iff it is outside (−6, 6); roll iff pitch is inside and roll outside; no correction iff both are inside; the same in both variants |
| Balance.Output | java/frc/robot/subsystems/SwerveSubsystem.java:204-211 | error·kP + kF is exactly the feed-forward 0.02 at the centre, and exceeds it iff the angle is above the centre |
| Balance.Command | java/frc/robot/subsystems/SwerveSubsystem.java:203-258 | every balance command has zero y and zero rotation, is field-relative and open-loop, and has zero x when both angles are level |
| Balance.PitchDominates | java/frc/robot/subsystems/SwerveSubsystem.java:213-245 | with pitch outside the band the command does not depend on roll, and x is ±((pitch − centre)·0.06 + 0.02)·(maxSpeed − 4), in both variants |
| Balance.RollWhenPitchLevel | java/frc/robot/subsystems/SwerveSubsystem.java:220-252 | with pitch inside and roll outside the band the command does not depend on the exact pitch, and x is ±((roll − centre)·0.06 + 0.02)·(maxSpeed − 4), in both variants |
| Balance.LevelIsStill | java/frc/robot/subsystems/SwerveSubsystem.java:227-254 | with both angles inside the band either variant issues the zero command |
| Balance.CloseFarRelation | java/frc/robot/subsystems/SwerveSubsystem.java:203-258 | when an axis is corrected the Close and Far x commands add up to 0.075·(maxSpeed − 4); when level they are equal |
| Balance.CorrectionDirection | java/frc/robot/subsystems/SwerveSubsystem.java:207-252 | with maxSpeed above 4, a corrected angle of at least 6 gives a positive Close x and a negative Far x, and one of at most −6 gives the reverse |
| Swerve.SwerveSubsystem.AutoBalanceClose | java/frc/robot/subsystems/SwerveSubsystem.java:203-228 | exactly one drive call is issued, the Close command for the current pitch and roll; no motor mode changes |
| Swerve.SwerveSubsystem.AutoBalanceFar | java/frc/robot/subsystems/SwerveSubsystem.java:230-258 | exactly one drive call is issued, the Far command; the drive-motor modes become FarModes of the old modes (all Brake when level, unchanged otherwise) |
| Swerve.FarModes | java/frc/robot/subsystems/SwerveSubsystem.java:254-257 | a level reading leaves every drive motor in Brake; any other reading leaves the modes unchanged |
| Swerve.FarModesIdempotent | java/frc/robot/subsystems/SwerveSubsystem.java:254-257 | calling AutoBalanceFar again on the same reading changes no mode |
| Swerve.SwerveSubsystem.BalanceBrake | java/frc/robot/subsystems/SwerveSubsystem.java:197-201 | issues one field-relative open-loop drive call with translation (0, 0.05·maxSpeed) and no rotation |
| Swerve.SwerveSubsystem.Drive | java/frc/robot/subsystems/SwerveSubsystem.java:72-91 | the drive call with its translation, rotation and flags is appended to the drive log |
| Swerve.ModeFor | java/frc/robot/subsystems/SwerveSubsystem.java:183-195 | the neutral mode is Coast iff the coast flag is set |
| Swerve.ToggledModes | java/frc/robot/subsystems/SwerveSubsystem.java:183-195 | after a toggle all four drive motors are in the mode of the negated flag: Brake if the robot was coasting, Coast otherwise |
| Swerve.Toggle | java/frc/robot/subsystems/SwerveSubsystem.java:183-195 | a toggle negates the flag and leaves all four drive-motor modes agreeing with the new flag |
| Swerve.ToggleTwice | java/frc/robot/subsystems/SwerveSubsystem.java:183-195 | two toggles restore the flag, leave the modes agreeing with it, and restore the whole state when the modes agreed before |
| Swerve.SwerveSubsystem.ToggleCoast | java/frc/robot/subsystems/SwerveSubsystem.java:183-195 | the flag and the drive-motor modes become Toggle of the old flag and modes; temperatures are untouched |
| Swerve.SwerveSubsystem.DispatchStates | java/frc/robot/subsystems/SwerveSubsystem.java:88-90 | module i receives slot i of the states (slot moduleNumber) and the open-loop flag; measured state and position are untouched |
| Swerve.SwerveSubsystem.GetStates | java/frc/robot/subsystems/SwerveSubsystem.java:101-107 | slot moduleNumber of a fresh 4-slot array holds that module's measured state |
| Swerve.SwerveSubsystem.GetModulePositions | java/frc/robot/subsystems/SwerveSubsystem.java:109-115 | slot moduleNumber of a fresh 4-slot array holds that module's position |
| Swerve.SwerveSubsystem.ReadGyro | java/frc/robot/subsystems/SwerveSubsystem.java:263-265 | the sample lands in ypr, and pitch and roll are copied from ypr[1] and ypr[2] |
| Accumulators.Step | java/frc/robot/subsystems/SwerveSubsystem.java:279-284 | after a cycle the previous x, y and distance are the current ones |
| Accumulators.StepRuntime | java/frc/robot/subsystems/SwerveSubsystem.java:276-278 | a cycle adds exactly 0.03 when x, y or distance grew by at least 0.05, and nothing otherwise |
| Accumulators.NoIncreaseNoRuntime | java/frc/robot/subsystems/SwerveSubsystem.java:276 | when x, y and distance all stay level or shrink, the runtime is unchanged |
| Accumulators.ShrinkingPositiveXNotCounted | java/frc/robot/subsystems/SwerveSubsystem.java:275-278 | driving from (a, 0) to (b, 0) with a ≥ b ≥ 0 adds no runtime, however far |
| Accumulators.ApproachFromNegativeXCounted | java/frc/robot/subsystems/SwerveSubsystem.java:275-278 | driving from (−1, 0) to (−0.5, 0) adds one period, because x grows |
| Accumulators.Run | java/frc/robot/subsystems/SwerveSubsystem.java:272-284 | over any run of cycles the runtime never decreases and grows by at most 0.03 per cycle, and the previous pose is the last sample's |
| Accumulators.RunRuntime | java/frc/robot/subsystems/SwerveSubsystem.java:272-284 | over many cycles the runtime grows by exactly 0.03 times the number of cycles that see motion |
| Accumulators.StillRunKeepsRuntime | java/frc/robot/subsystems/SwerveSubsystem.java:272-284 | cycles without motion leave the runtime unchanged |
| Swerve.SwerveSubsystem.UpdateRuntime | java/frc/robot/subsystems/SwerveSubsystem.java:272-284 | the runtime and previous pose become Step of the old ones and the current sample |
| Accumulators.TempStep | java/frc/robot/subsystems/SwerveSubsystem.java:286-291 | for eight readings a cycle yields their mean plus one eighth of the previous value, since the accumulator is not cleared |
| Accumulators.TempSteadyState | java/frc/robot/subsystems/SwerveSubsystem.java:286-291 | under eight steady readings T the value is fixed exactly at 8T/7; starting from T it stays at T only when T is 0 |
| Swerve.SwerveSubsystem.AccumulateTemperature | java/frc/robot/subsystems/SwerveSubsystem.java:286-292 | the average becomes (old + sum of the eight temperatures, drive then steering, module by module)/8, and the global copy equals it |
| Swerve.SwerveSubsystem.Periodic | java/frc/robot/subsystems/SwerveSubsystem.java:262-293 | one cycle stores the gyro sample, steps the runtime tracker with the current pose and distance, and folds the temperatures into the average |

## Left out

- Kinematics: `toSwerveModuleStates` and `fromFieldRelativeSpeeds` are library code with trigonometry. `Drive` records the call and its arguments instead of computing module states.
- Swerve.SwerveSubsystem.Drive: does not call `DispatchStates`, so in this model the modules receive nothing from `drive` and their `desired` fields stay unchanged after a balance call. In the source, `drive` sets all four.
- `desaturateWheelSpeeds` is library code. `DispatchStates` takes states that are already desaturated. `setModuleStates` as a whole (desaturate, then dispatch) is therefore not a separate member.
- Odometry: `SwerveDriveOdometry` construction, `update`, `resetPosition`, `getPose` and `resetOdometry` are library code. `Periodic` takes the pose that odometry reports as its x and y parameters.
- Periodic: `Math.sqrt` is not available over reals. `Periodic` takes the distance from the origin as a parameter and requires it to be the non-negative square root of x² + y².
- `SwerveModule.java` is not part of this model.
  - `setDesiredState` only records the request; its angle optimisation and motor output are not modelled.
  - `getState` and `getPosition` are the module's `state` and `position` fields, taken as hardware feedback.
  - `getPositionInverted` is not shown, so `getModulePositionsInverted` is left out.
  - `getCanCoder` is left out.
  - The initial mode of the steering motors and the initial temperatures are placeholders.
- Gyro hardware: Pigeon2 construction, `configFactoryDefault`, `zeroGyro` and `setGyro` write hardware state that is not modelled. `getYawPitchRoll` becomes the parameters of `ReadGyro`.
- Telemetry: `Logger.recordOutput` and `SmartDashboard.putNumber` are output-only and are left out.
- Swerve.SwerveSubsystem.GetNominalYaw: does not write the scratch fields `realYaw`, `rotations` and `nomYaw`. Their values are visible only inside the method.
- Swerve.SwerveSubsystem.UpdateRuntime: does not model resetting the scratch fields `currX`, `currY` and `currDist` to 0, which are written before every read.
- The static `avgMotorTemp` is modelled as a field of the single subsystem instance.
- Unused fields are left out: `hasResetOdometry`, `noRotation2d`, `convertedCords`, `AprilCords`, `botpose`.
- Floating-point rounding is not modelled: doubles are reals. So `Math.round` has no special case near one half, and `rotations` has no long-to-double conversion.
- The command classes around the subsystem (arm, claw, location and pipeline commands) are scheduling glue and are not part of this model.

# Drive-mode state machine of the swerve drivetrain

This project models the drive-mode state machine of `DrivetrainSubsystem`, the
subsystem of an FRC robot (team 8517) that drives a three-module swerve base.
The subsystem has two public, non-final fields, the drive handle and the drive
mode; after construction its own code writes only the mode. The mode starts as
field-centric and is advanced by `changeDriveMode()` along the cycle
field-centric, angle-field-centric, robot-centric, and back to field-centric.
A non-null mode outside those three hits the `default` arm of the `switch` and
is reset to robot-centric. `getDriveMode()` reads the field.

- `drive_mode.dfy`, module `DriveModes`: the `EDriveMode` datatype, the
  successor function `Next`, the position of a mode on the cycle (`Rank`), the
  mode after `n` changes (`Iterate`), and lemmas about the cycle.
- `drivetrain_subsystem.dfy`, module `Subsystems`: the class
  `DrivetrainSubsystem` with its mutable `driveMode` field and its drive
  handle, the constructor, `ChangeDriveMode` (which writes only the mode
  field) and `GetDriveMode` (which modifies nothing), plus two client
  scenarios.

The enumeration `EDriveMode` is declared in a file that is not part of this
model. Only three of its constants are known, so the datatype has those three
and a catch-all `Other(name)` for any further constant. The robot code
declares the field public, so other code may store such a value; that is how
the default arm becomes reachable, and `UnknownModeScenario` shows it.

The vendor drive object `RobotDrive` is not part of this model. It is an empty
class here, kept only so that `ChangeDriveMode` can be shown to leave the
handle alone.

## Model

| member | source | states |
|---|---|---|
| `DriveModes.Next` | src/main/java/frc/robot/subsystems/DrivetrainSubsystem.java:88-103 | the successor is always one of the three named modes and differs from its argument; a named mode moves one place forward on the cycle of three (position + 1 mod 3); any other value becomes robot-centric |
| `DriveModes.IterateRank` | src/main/java/frc/robot/subsystems/DrivetrainSubsystem.java:89-102 | from a named mode, `n` changes stay on the named modes and move exactly `n` places (mod 3) along the cycle |
| `DriveModes.CyclePeriod` | src/main/java/frc/robot/subsystems/DrivetrainSubsystem.java:89-102 | a named mode returns to itself after `n` changes if and only if `n` is a multiple of three |
| `DriveModes.CycleLengthThree` | src/main/java/frc/robot/subsystems/DrivetrainSubsystem.java:89-102 | three changes bring every named mode back, and one or two changes do not |
| `DriveModes.UnknownJoinsCycle` | src/main/java/frc/robot/subsystems/DrivetrainSubsystem.java:99-101 | a value outside the named modes is reset to robot-centric by the first change and then follows the cycle from robot-centric |
| `Subsystems.DrivetrainSubsystem.constructor` | src/main/java/frc/robot/subsystems/DrivetrainSubsystem.java:21-62 | a new subsystem is in field-centric mode (the initialiser at line 21) and holds a fresh drive object (created at line 62) |
| `Subsystems.DrivetrainSubsystem.ChangeDriveMode` | src/main/java/frc/robot/subsystems/DrivetrainSubsystem.java:88-103 | the new mode is the successor of the old one, so it is always a named mode; only the mode field is written and the drive handle is unchanged |
| `Subsystems.DrivetrainSubsystem.GetDriveMode` | src/main/java/frc/robot/subsystems/DrivetrainSubsystem.java:104-106 | returns the current mode and modifies nothing, so two reads with no change between them agree |
| `Subsystems.CycleScenario` | src/main/java/frc/robot/subsystems/DrivetrainSubsystem.java:21-106 | a new subsystem reads field-centric twice, then angle-field-centric, robot-centric and field-centric after one, two and three changes |
| `Subsystems.UnknownModeScenario` | src/main/java/frc/robot/subsystems/DrivetrainSubsystem.java:99-101 | after other code stores an unknown mode in the public field, one change gives robot-centric and keeps the same drive handle |

## Left out

- Constructor configuration (lines 24-65): builds vendor configuration objects, PID gains and CAN IDs; there is no logic to verify. The constructor is modelled only as far as it sets the initial mode and creates the drive handle.
- `driveStopMotion`, `driveRobotCentric`, `driveFieldCentric`, `driveAngleFieldCentric`, `getRobotAngle` (lines 70-81, 107-109): one-line forwards to `RobotDrive`, whose source is not part of this model, and hardware I/O.
- `drivePolarFieldCentric` (lines 82-87): floating-point trigonometry and a degree-to-radian conversion. A note on the source: its axis convention is unusual, with x taken from the sine of the drive angle and y from its cosine, so an angle of 0 points along +y.
- Null mode: the model's mode field cannot hold null. In the source the public field can be set to null, and then the `switch` in `changeDriveMode` (line 89) throws a NullPointerException instead of reaching the `default` arm; the model leaves that error path out.
- `updateDashboard` (lines 66-69): dashboard telemetry I/O.
- `periodic` (lines 111-114): an empty hook called by the framework's scheduler.
- Concurrency: the robot framework calls the subsystem from one thread, so no concurrent access to the mode field is modelled.

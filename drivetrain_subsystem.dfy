/**
 The drive-mode state of the swerve drivetrain subsystem.

 The subsystem owns a handle to the vendor drive object and a drive-mode
 field; after construction its own code writes only the mode. Only the mode
 field, its initial value, the operation that cycles it and the operation
 that reads it are modelled here; the drive handle is kept as an opaque
 object so that its being left alone can be stated.
 */
module Subsystems {
  import opened DriveModes

  /** Opaque stand-in for the vendor drive object the subsystem forwards to. */
  class RobotDrive {
    constructor () {
    }
  }

  class DrivetrainSubsystem {
    var robotDrive: RobotDrive
    /** Public in the robot code, so other code may also assign it. */
    var driveMode: EDriveMode

    /** The subsystem is in one of the three named modes. */
    ghost predicate InNamedMode()
      reads this
    {
      IsNamed(driveMode)
    }

    /** A new subsystem starts in field-centric mode with its own drive object. */
    constructor ()
      ensures driveMode == FieldCentric
      ensures InNamedMode()
      ensures fresh(robotDrive)
    {
      robotDrive := new RobotDrive();
      driveMode := FieldCentric;
    }

    /**
     Advances the mode one step along the cycle; a value outside the three
     named modes is reset to robot-centric. Only the mode field is written.
     */
    method ChangeDriveMode()
      modifies this`driveMode
      ensures driveMode == Next(old(driveMode))
      ensures InNamedMode()
      ensures robotDrive == old(robotDrive)
    {
      match driveMode {
        case FieldCentric =>
          driveMode := AngleFieldCentric;
        case AngleFieldCentric =>
          driveMode := RobotCentric;
        case RobotCentric =>
          driveMode := FieldCentric;
        case Other(_) =>
          driveMode := RobotCentric;
      }
    }

    /** Reads the current mode; it modifies nothing. */
    method GetDriveMode() returns (m: EDriveMode)
      ensures m == driveMode
    {
      m := driveMode;
    }
  }

  /**
   A driver's session: a new subsystem is read twice, then the mode is
   changed three times with a read after each change.
   */
  method CycleScenario() returns (seen: seq<EDriveMode>)
    ensures seen == [FieldCentric, FieldCentric, AngleFieldCentric, RobotCentric, FieldCentric]
  {
    var d := new DrivetrainSubsystem();
    var first := d.GetDriveMode();
    var again := d.GetDriveMode();
    d.ChangeDriveMode();
    var second := d.GetDriveMode();
    d.ChangeDriveMode();
    var third := d.GetDriveMode();
    d.ChangeDriveMode();
    var fourth := d.GetDriveMode();
    seen := [first, again, second, third, fourth];
  }

  /**
   Other code stores a mode outside the three named ones in the public
   field; the next change resets it to robot-centric and keeps the drive
   handle.
   */
  method UnknownModeScenario(name: string) returns (m: EDriveMode, sameDrive: bool)
    ensures m == RobotCentric
    ensures sameDrive
  {
    var d := new DrivetrainSubsystem();
    var drive := d.robotDrive;
    d.driveMode := Other(name);
    d.ChangeDriveMode();
    m := d.GetDriveMode();
    sameDrive := d.robotDrive == drive;
  }
}

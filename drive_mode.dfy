/**
 The drive modes of the swerve drivetrain and the successor table that
 cycles through them.

 Only three constants of the robot's drive-mode enumeration are known:
 field-centric, angle-field-centric and robot-centric. The enumeration may
 hold others, and the cycling code has a defensive default arm for them, so
 the datatype carries a catch-all constructor `Other` that stands for any
 further constant, identified by its name.
 */
module DriveModes {

  datatype EDriveMode =
    | FieldCentric
    | AngleFieldCentric
    | RobotCentric
    | Other(name: string)

  /** The three modes the drivetrain names and cycles through. */
  predicate IsNamed(m: EDriveMode) {
    !m.Other?
  }

  /** Position of a named mode on the cycle, counted from field-centric. */
  function Rank(m: EDriveMode): (k: nat)
    requires IsNamed(m)
    ensures k < 3
    ensures m == FieldCentric <==> k == 0
    ensures m == RobotCentric <==> k == 2
  {
    match m
    case FieldCentric => 0
    case AngleFieldCentric => 1
    case RobotCentric => 2
  }

  /** Two named modes with the same position on the cycle are the same mode. */
  lemma RankInjective(a: EDriveMode, b: EDriveMode)
    requires IsNamed(a) && IsNamed(b)
    ensures Rank(a) == Rank(b) <==> a == b
  {
  }

  /**
   The successor of a mode: one step forward along the cycle
   field-centric, angle-field-centric, robot-centric for a named mode, and
   robot-centric for any other value.
   */
  function Next(m: EDriveMode): (r: EDriveMode)
    ensures IsNamed(r)
    ensures r != m
    ensures IsNamed(m) ==> Rank(r) == (Rank(m) + 1) % 3
    ensures !IsNamed(m) ==> r == RobotCentric
  {
    match m
    case FieldCentric => AngleFieldCentric
    case AngleFieldCentric => RobotCentric
    case RobotCentric => FieldCentric
    case Other(_) => RobotCentric
  }

  /** The mode reached from `m` after `n` successive mode changes. */
  function Iterate(m: EDriveMode, n: nat): (r: EDriveMode) {
    if n == 0 then m else Next(Iterate(m, n - 1))
  }

  /**
   Starting from a named mode, `n` changes move `n` places along the cycle
   of three, and never leave it.
   */
  lemma {:induction false} IterateRank(m: EDriveMode, n: nat)
    requires IsNamed(m)
    ensures IsNamed(Iterate(m, n))
    ensures Rank(Iterate(m, n)) == (Rank(m) + n) % 3
  {
    if n > 0 {
      IterateRank(m, n - 1);
      var k := Rank(Iterate(m, n - 1));
      assert k == (Rank(m) + (n - 1)) % 3;
      assert Rank(Iterate(m, n)) == (k + 1) % 3;
    }
  }

  /**
   A named mode comes back to itself after exactly the multiples of three
   changes: the cycle has length three and no shorter period.
   */
  lemma {:induction false} CyclePeriod(m: EDriveMode, n: nat)
    requires IsNamed(m)
    ensures Iterate(m, n) == m <==> n % 3 == 0
  {
    IterateRank(m, n);
    RankInjective(Iterate(m, n), m);
    assert (Rank(m) + n) % 3 == Rank(m) <==> n % 3 == 0;
  }

  /** Three changes bring every named mode back where it started. */
  lemma {:induction false} CycleLengthThree(m: EDriveMode)
    requires IsNamed(m)
    ensures Iterate(m, 3) == m
    ensures Iterate(m, 1) != m && Iterate(m, 2) != m
  {
    CyclePeriod(m, 1);
    CyclePeriod(m, 2);
    CyclePeriod(m, 3);
  }

  /**
   A value outside the three named modes is reset to robot-centric by the
   first change and then follows the cycle from there.
   */
  lemma {:induction false} UnknownJoinsCycle(m: EDriveMode, n: nat)
    requires !IsNamed(m)
    ensures Iterate(m, n + 1) == Iterate(RobotCentric, n)
  {
    if n > 0 {
      UnknownJoinsCycle(m, n - 1);
    }
  }
}

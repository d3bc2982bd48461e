/** The robot of the hero section (src/components/RobotViewer.jsx): where
    and how large it is drawn for the window width, which animation clip it
    idles with, and how its rotation follows the pointer once it has made
    its entrance. */
module RobotViewer {
  import opened Wrappers

  /** A target scale and the (x, y) position of the robot group. */
  datatype Placement = Placement(scale: real, x: real, y: real)

  const Mobile := Placement(0.7, 0.4, 0.8)
  const Tablet := Placement(0.9, 0.0, 0.0)
  const SmallDesktop := Placement(1.1, -0.3, 0.0)
  const LargeDesktop := Placement(1.3, -0.5, -0.2)

  /** The placement before the width is first read. */
  const InitialPlacement := Placement(1.0, -0.5, 0.0)

  /** `calculateScaleAndPosition` for a window `width` pixels wide. */
  function TargetPlacement(width: int): Placement {
    if width < 640 then Mobile
    else if width < 1024 then Tablet
    else if width < 1440 then SmallDesktop
    else LargeDesktop
  }

  /** Each band of widths gets its own placement, and each placement comes
      only from its band. None of them is the initial placement, so the
      first reading of the width always moves the robot. */
  lemma PlacementBands(width: int)
    ensures TargetPlacement(width) != InitialPlacement
    ensures TargetPlacement(width) == Mobile <==> width < 640
    ensures TargetPlacement(width) == Tablet <==> 640 <= width < 1024
    ensures TargetPlacement(width) == SmallDesktop <==> 1024 <= width < 1440
    ensures TargetPlacement(width) == LargeDesktop <==> 1440 <= width
  {
  }

  /** A wider window never makes the robot smaller, and its scale stays
      within [0.7, 1.3]. */
  lemma ScaleMonotone(w1: int, w2: int)
    requires w1 <= w2
    ensures TargetPlacement(w1).scale <= TargetPlacement(w2).scale
    ensures 0.7 <= TargetPlacement(w1).scale <= 1.3
  {
  }

  // ---------------------------------------------------------------------
  // The idle animation

  /** JavaScript reads `names[0]` of an empty list as undefined, and an
      undefined key as the key "undefined". */
  function FirstNameKey(names: seq<string>): string {
    if |names| > 0 then names[0] else "undefined"
  }

  /** The clip played from the start: 'Idle' if there is one, otherwise the
      action of the first clip name, otherwise none. */
  function IdleAction<A>(actions: map<string, A>, names: seq<string>): Option<A> {
    if "Idle" in actions then Some(actions["Idle"])
    else if FirstNameKey(names) in actions then Some(actions[FirstNameKey(names)])
    else None
  }

  /** 'Idle' wins whenever it exists; otherwise the first clip plays; and
      nothing plays only when neither is there. When every clip name has an
      action, as the animation hook provides, a model with at least one clip
      always plays something. */
  lemma IdleFallback<A>(actions: map<string, A>, names: seq<string>)
    ensures "Idle" in actions ==> IdleAction(actions, names) == Some(actions["Idle"])
    ensures "Idle" !in actions && |names| > 0 && names[0] in actions ==>
      IdleAction(actions, names) == Some(actions[names[0]])
    ensures IdleAction(actions, names).None? <==> "Idle" !in actions && FirstNameKey(names) !in actions
    ensures |names| > 0 && (forall n :: n in names ==> n in actions) ==> IdleAction(actions, names).Some?
  {
  }

  // ---------------------------------------------------------------------
  // Following the pointer

  /** The robot's entrance flag and rotation about x and y. */
  datatype Robot = Robot(hasEntered: bool, rotX: real, rotY: real)

  const InitialRobot := Robot(false, 0.0, 0.0)

  /** three.js `MathUtils.lerp`. */
  function Lerp(a: real, b: real, t: real): real {
    (1.0 - t) * a + t * b
  }

  /** The setup effect faces the robot to the viewer, if the group is
      mounted; it does not reset the entrance flag. */
  function Setup(r: Robot, mounted: bool): Robot {
    if mounted then r.(rotY := 0.0) else r
  }

  /** The end of the entrance tween, `setHasEntered(true)`. */
  function Entered(r: Robot): Robot {
    r.(hasEntered := true)
  }

  /** One frame: before the entrance is over, or without a mounted group,
      nothing moves; afterwards each rotation goes a tenth of the way to its
      target, the pointer's x giving the y rotation and its y the x
      rotation. */
  function Frame(r: Robot, mounted: bool, yawTarget: real, pitchTarget: real): Robot {
    if !mounted || !r.hasEntered then r
    else r.(rotY := Lerp(r.rotY, yawTarget, 0.1), rotX := Lerp(r.rotX, pitchTarget, 0.1))
  }

  /** A run of frames with the given targets (yaw, pitch). */
  function Frames(r: Robot, mounted: bool, targets: seq<(real, real)>): Robot
    decreases |targets|
  {
    if |targets| == 0 then r
    else
      var t := targets[|targets| - 1];
      Frame(Frames(r, mounted, targets[..|targets| - 1]), mounted, t.0, t.1)
  }

  /** Until the entrance tween completes, no run of frames turns the robot,
      wherever the pointer goes. */
  lemma {:induction false} FrozenBeforeEntry(r: Robot, mounted: bool, targets: seq<(real, real)>)
    requires !r.hasEntered
    ensures Frames(r, mounted, targets) == r
    decreases |targets|
  {
    if |targets| > 0 {
      FrozenBeforeEntry(r, mounted, targets[..|targets| - 1]);
    }
  }

  /** Once the entrance tween has completed, each frame closes a tenth of
      the gap between each rotation and its target: the gap keeps its sign
      and shrinks. */
  lemma ApproachAfterEntry(r: Robot, yawTarget: real, pitchTarget: real)
    ensures var n := Frame(Entered(r), true, yawTarget, pitchTarget);
      n.rotY - yawTarget == 0.9 * (r.rotY - yawTarget) &&
      n.rotX - pitchTarget == 0.9 * (r.rotX - pitchTarget) &&
      n.hasEntered
  {
  }

  /** The robot as first mounted waits, facing forward, through every frame
      until its entrance completes. */
  lemma InitialRobotWaits(targets: seq<(real, real)>)
    ensures Frames(Setup(InitialRobot, true), true, targets) == InitialRobot
  {
    FrozenBeforeEntry(Setup(InitialRobot, true), true, targets);
  }

  /** Holding the pointer still after the entrance, the yaw gap after k
      frames is 0.9^k times the first one. */
  function Shrink(k: nat): real {
    if k == 0 then 1.0 else 0.9 * Shrink(k - 1)
  }

  lemma {:induction false} ApproachSteady(r: Robot, yawTarget: real, pitchTarget: real, k: nat)
    requires r.hasEntered
    ensures var n := Frames(r, true, seq(k, _ => (yawTarget, pitchTarget)));
      n.hasEntered && n.rotY - yawTarget == Shrink(k) * (r.rotY - yawTarget)
  {
    if k > 0 {
      var ts := seq(k, _ => (yawTarget, pitchTarget));
      assert ts[..k - 1] == seq(k - 1, _ => (yawTarget, pitchTarget));
      ApproachSteady(r, yawTarget, pitchTarget, k - 1);
      var m := Frames(r, true, ts[..k - 1]);
      assert Entered(m) == m;
      ApproachAfterEntry(m, yawTarget, pitchTarget);
    }
  }

  /** Re-running the setup when the window crosses a breakpoint faces the
      robot forward again but keeps it following the pointer. */
  lemma SetupKeepsEntrance(r: Robot)
    ensures Setup(r, true).hasEntered == r.hasEntered && Setup(r, true).rotY == 0.0
    ensures Setup(r, false) == r
  {
  }
}

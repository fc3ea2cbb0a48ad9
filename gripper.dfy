/** The `DobotPalletizer` class of pydobot_gripper.py: the gripper variant of the palletizer,
 *  with per-position rotations, an unguarded release in `move_block`, and a `return_blocks`
 *  list that hides the `return_blocks` method.  Every method is proved to do what the function
 *  in GripperSpec that its contract names says. */
module Gripper {
  import opened Dobot
  import GripperSpec

  class Palletizer {
    /** `safe_height` and `rotation`. */
    const cfg: Config
    /** `self.blocks`. */
    const blocks: seq<Block>
    /** `self.return_blocks`: the list `__init__` assigns, which hides the method of that name. */
    const returnBlocks: seq<Block>
    /** Whether `self.device` is set (not None). */
    var device: bool
    /** The driver behind the port. */
    const arm: Arm

    function State(): World
      reads this, arm
    {
      World(device, arm.log)
    }

    /** `__init__` without its final `connect()` call, which callers make with Connect. */
    constructor (arm: Arm, cfg: Config)
      ensures this.arm == arm && this.cfg == cfg
      ensures blocks == GripperSpec.Table() && returnBlocks == GripperSpec.ReturnTable() && !device
    {
      this.arm := arm;
      this.cfg := cfg;
      blocks := GripperSpec.Table();
      returnBlocks := GripperSpec.ReturnTable();
      device := false;
    }

    /** `connect`; the exception it re-raises is returned. */
    method Connect() returns (e: Option<Exc>)
      modifies this, arm
      ensures Step(e, State()) == GripperSpec.Connect(arm.fails, old(State()))
    {
      var raised := arm.Issue(Open);
      if raised {
        return Some(DeviceError);
      }
      device := true;
      e := Send(arm, device, Grip(false));
    }

    /** The `except` block of `move_block`, entered once a call of the `try` raised: a release
     *  with no handler of its own, so its exception leaves `move_block`; otherwise False. */
    method Recover(ghost w0: World, pick: Position, drop: Position) returns (r: Outcome<bool>)
      requires RunSteps(arm.fails, w0, GripperSpec.Steps(cfg, pick, drop)).exc.Some?
      requires RunSteps(arm.fails, w0, GripperSpec.Steps(cfg, pick, drop)).w == State()
      modifies arm
      ensures GripperSpec.Moved(r, State()) == GripperSpec.MoveBlock(arm.fails, cfg, w0, pick, drop)
    {
      var e := Send(arm, device, Grip(false));
      if e.Some? {
        return Raised(e.value);
      }
      return Returned(false);
    }

    /** `move_block`: the eight calls of the `try`; the first one that raises leads to the `except` block. */
    method MoveBlock(pick: Position, drop: Position) returns (r: Outcome<bool>)
      modifies arm
      ensures GripperSpec.Moved(r, State()) == GripperSpec.MoveBlock(arm.fails, cfg, old(State()), pick, drop)
    {
      ghost var w0 := State();
      ghost var plan := GripperSpec.Steps(cfg, pick, drop);
      assert plan[0..] == plan;
      var pickR := GripperSpec.RotationOf(pick, cfg.rotation);
      var dropR := GripperSpec.RotationOf(drop, cfg.rotation);
      var e := Advance(arm, device, MoveTo(pick.x, pick.y, cfg.safeHeight, pickR), w0, plan, 0);
      if e.Some? { r := Recover(w0, pick, drop); return; }
      e := Advance(arm, device, MoveTo(pick.x, pick.y, pick.z, pickR), w0, plan, 1);
      if e.Some? { r := Recover(w0, pick, drop); return; }
      e := Advance(arm, device, Grip(true), w0, plan, 2);
      if e.Some? { r := Recover(w0, pick, drop); return; }
      e := Advance(arm, device, MoveTo(pick.x, pick.y, cfg.safeHeight, pickR), w0, plan, 3);
      if e.Some? { r := Recover(w0, pick, drop); return; }
      e := Advance(arm, device, MoveTo(drop.x, drop.y, cfg.safeHeight, dropR), w0, plan, 4);
      if e.Some? { r := Recover(w0, pick, drop); return; }
      e := Advance(arm, device, MoveTo(drop.x, drop.y, drop.z, dropR), w0, plan, 5);
      if e.Some? { r := Recover(w0, pick, drop); return; }
      e := Advance(arm, device, Grip(false), w0, plan, 6);
      if e.Some? { r := Recover(w0, pick, drop); return; }
      e := Advance(arm, device, MoveTo(drop.x, drop.y, cfg.safeHeight, dropR), w0, plan, 7);
      if e.Some? { r := Recover(w0, pick, drop); return; }
      return Returned(true);
    }

    /** The loop shared by `transfer_blocks` and `return_blocks` over the table `table`: one
     *  `move_block` per entry, counting the True results; an exception ends the loop and is
     *  passed on. */
    method MoveAll(table: seq<Block>) returns (r: Outcome<nat>)
      modifies arm
      ensures var t := GripperSpec.TransferFrom(arm.fails, cfg, old(State()), table, 0);
              State() == t.w
              && r == (if t.exc.Some? then Raised(t.exc.value) else Returned(Successes(t.outcomes)))
    ensures r.Returned? ==> r.value <= |table|
    {
      ghost var w0 := State();
      ghost var done: seq<bool> := [];
      var count := 0;
      for i := 0 to |table|
        invariant count == Successes(done)
        invariant GripperSpec.Progress(arm.fails, cfg, w0, table, i, done, State())
      {
        ghost var before := State();
        var m := MoveBlock(table[i].pick, table[i].drop);
        GripperSpec.ProgressStep(arm.fails, cfg, w0, table, i, done, before, m, State());
        if m.Raised? {
          return Raised(m.exc);
        }
        SuccessesAppend(done, m.value);
        done := done + [m.value];
        if m.value {
          count := count + 1;
        }
      }
      assert done + [] == done;
      return Returned(count);
    }

    /** `transfer_blocks`. */
    method TransferBlocks() returns (r: Outcome<nat>)
      modifies arm
      ensures var t := GripperSpec.TransferFrom(arm.fails, cfg, old(State()), blocks, 0);
              State() == t.w
              && r == (if t.exc.Some? then Raised(t.exc.value) else Returned(Successes(t.outcomes)))
    ensures r.Returned? ==> r.value <= |blocks|
    {
      r := MoveAll(blocks);
    }

    /** The `return_blocks` method, which the script defines but cannot reach through
     *  `self.return_blocks`: the same loop over the return list. */
    method ReturnBlocks() returns (r: Outcome<nat>)
      modifies arm
      ensures var t := GripperSpec.TransferFrom(arm.fails, cfg, old(State()), returnBlocks, 0);
              State() == t.w
              && r == (if t.exc.Some? then Raised(t.exc.value) else Returned(Successes(t.outcomes)))
    ensures r.Returned? ==> r.value <= |returnBlocks|
    {
      r := MoveAll(returnBlocks);
    }

    /** `run_complete_cycle` as written.  The lookup `self.return_blocks` finds the list, and
     *  calling it raises TypeError, which the `except` block handles like any other exception:
     *  `emergency_stop`, then None. */
    method RunCompleteCycle() returns (report: Option<GripperSpec.Report>)
      modifies arm
      ensures GripperSpec.Cycle(report, State()) == GripperSpec.CompleteCycle(arm.fails, cfg, old(State()), blocks)
    {
      var transferred := TransferBlocks();
      if transferred.Raised? {
        EmergencyStop();
        return None;
      }
      if transferred.value > 0 {
        // `self.return_blocks()` calls the list: TypeError, handled by the `except` block
        EmergencyStop();
        return None;
      }
      return None;
    }

    /** `run_complete_cycle` as evidently intended, with the return leg reaching the
     *  `return_blocks` method over the return list. */
    method RunCycleAsIntended() returns (report: Option<GripperSpec.Report>)
      modifies arm
      ensures GripperSpec.Cycle(report, State())
           == GripperSpec.IntendedCycle(arm.fails, cfg, old(State()), blocks, returnBlocks)
    {
      var transferred := TransferBlocks();
      if transferred.Raised? {
        EmergencyStop();
        return None;
      }
      if transferred.value > 0 {
        var returned := ReturnBlocks();
        if returned.Raised? {
          EmergencyStop();
          return None;
        }
        return Some(GripperSpec.Report(transferred.value, returned.value));
      }
      return None;
    }

    /** `emergency_stop`. */
    method EmergencyStop()
      modifies arm
      ensures State() == GripperSpec.EmergencyStop(arm.fails, old(State()))
    {
      if device {
        var _ := Send(arm, device, Grip(false));
      }
    }

    /** `disconnect`. */
    method Disconnect()
      modifies this, arm
      ensures State() == GripperSpec.Disconnect(arm.fails, old(State()))
    {
      if device {
        var e := Send(arm, device, Grip(false));
        if e.Some? {
          return;
        }
        e := Send(arm, device, Close);
        if e.Some? {
          return;
        }
        device := false;
      }
    }
  }
}

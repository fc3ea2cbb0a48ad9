/** The `DobotPalletizer` class of pydobot_suction.py: a suction-cup palletizer that moves
 *  the blocks of its table from their pick to their drop positions and back.  Every method
 *  is proved to do what the SuctionSpec function its contract names says. */
module Suction {
  import opened Dobot
  import SuctionSpec

  class Palletizer {
    /** `safe_height` and `rotation`. */
    const cfg: Config
    /** `self.blocks`. */
    const blocks: seq<Block>
    /** Whether `self.device` is set (not None). */
    var device: bool
    /** The driver behind the port. */
    const arm: Arm

    function State(): World
      reads this, arm
    {
      World(device, arm.log)
    }

    /** `__init__` without its final `connect()` call, which callers make with Connect. */
    constructor (arm: Arm, cfg: Config)
      ensures this.arm == arm && this.cfg == cfg
      ensures blocks == SuctionSpec.Table() && !device
    {
      this.arm := arm;
      this.cfg := cfg;
      blocks := SuctionSpec.Table();
      device := false;
    }

    /** `connect`; the exception it re-raises is returned. */
    method Connect() returns (e: Option<Exc>)
      modifies this, arm
      ensures Step(e, State()) == SuctionSpec.Connect(arm.fails, old(State()))
    {
      var raised := arm.Issue(Open);
      if raised {
        return Some(DeviceError);
      }
      device := true;
      e := Send(arm, device, Suck(false));
    }

    /** The `except` block of `move_block`, entered once a call of the `try` raised: a release
     *  whose own exception is swallowed, and False. */
    method Recover(ghost w0: World, pick: Position, drop: Position) returns (ok: bool)
      requires RunSteps(arm.fails, w0, SuctionSpec.Steps(cfg, pick, drop)).exc.Some?
      requires RunSteps(arm.fails, w0, SuctionSpec.Steps(cfg, pick, drop)).w == State()
      modifies arm
      ensures SuctionSpec.Moved(ok, State()) == SuctionSpec.MoveBlock(arm.fails, cfg, w0, pick, drop)
    {
      var _ := Send(arm, device, Suck(false));
      return false;
    }

    /** `move_block`: the eight calls of the `try`; the first one that raises leads to the `except` block. */
    method MoveBlock(pick: Position, drop: Position) returns (ok: bool)
      modifies arm
      ensures SuctionSpec.Moved(ok, State()) == SuctionSpec.MoveBlock(arm.fails, cfg, old(State()), pick, drop)
    {
      ghost var w0 := State();
      ghost var plan := SuctionSpec.Steps(cfg, pick, drop);
      assert plan[0..] == plan;
      var e := Advance(arm, device, MoveTo(pick.x, pick.y, cfg.safeHeight, cfg.rotation), w0, plan, 0);
      if e.Some? { ok := Recover(w0, pick, drop); return; }
      e := Advance(arm, device, MoveTo(pick.x, pick.y, pick.z, cfg.rotation), w0, plan, 1);
      if e.Some? { ok := Recover(w0, pick, drop); return; }
      e := Advance(arm, device, Suck(true), w0, plan, 2);
      if e.Some? { ok := Recover(w0, pick, drop); return; }
      e := Advance(arm, device, MoveTo(pick.x, pick.y, cfg.safeHeight, cfg.rotation), w0, plan, 3);
      if e.Some? { ok := Recover(w0, pick, drop); return; }
      e := Advance(arm, device, MoveTo(drop.x, drop.y, cfg.safeHeight, cfg.rotation), w0, plan, 4);
      if e.Some? { ok := Recover(w0, pick, drop); return; }
      e := Advance(arm, device, MoveTo(drop.x, drop.y, drop.z, cfg.rotation), w0, plan, 5);
      if e.Some? { ok := Recover(w0, pick, drop); return; }
      e := Advance(arm, device, Suck(false), w0, plan, 6);
      if e.Some? { ok := Recover(w0, pick, drop); return; }
      e := Advance(arm, device, MoveTo(drop.x, drop.y, cfg.safeHeight, cfg.rotation), w0, plan, 7);
      if e.Some? { ok := Recover(w0, pick, drop); return; }
      return true;
    }

    /** `transfer_blocks`: one `move_block` per table entry, counting the ones that returned True. */
    method TransferBlocks() returns (transferred: nat)
      modifies arm
      ensures var t := SuctionSpec.TransferFrom(arm.fails, cfg, old(State()), blocks, 0);
              transferred == Successes(t.outcomes) && State() == t.w
    ensures transferred <= |blocks|
    {
      ghost var w0 := State();
      ghost var done: seq<bool> := [];
      transferred := 0;
      for i := 0 to |blocks|
        invariant transferred == Successes(done)
        invariant SuctionSpec.Progress(arm.fails, cfg, w0, blocks, i, done, State())
      {
        ghost var before := State();
        var ok := MoveBlock(blocks[i].pick, blocks[i].drop);
        SuctionSpec.ProgressStep(arm.fails, cfg, w0, blocks, i, done, before, ok, State());
        SuccessesAppend(done, ok);
        done := done + [ok];
        if ok {
          transferred := transferred + 1;
        }
      }
      assert done + [] == done;
    }

    /** `return_blocks`: the same loop with each entry's drop position as the pick and its pick
     *  position as the drop, which is a transfer of the swapped table. */
    method ReturnBlocks() returns (returned: nat)
      modifies arm
      ensures var t := SuctionSpec.TransferFrom(arm.fails, cfg, old(State()), Swapped(blocks), 0);
              returned == Successes(t.outcomes) && State() == t.w
    ensures returned <= |blocks|
    {
      ghost var w0 := State();
      ghost var done: seq<bool> := [];
      ghost var back := Swapped(blocks);
      returned := 0;
      for i := 0 to |blocks|
        invariant returned == Successes(done)
        invariant SuctionSpec.Progress(arm.fails, cfg, w0, back, i, done, State())
      {
        assert back[i] == Block(blocks[i].drop, blocks[i].pick);
        ghost var before := State();
        var ok := MoveBlock(blocks[i].drop, blocks[i].pick);
        SuctionSpec.ProgressStep(arm.fails, cfg, w0, back, i, done, before, ok, State());
        SuccessesAppend(done, ok);
        done := done + [ok];
        if ok {
          returned := returned + 1;
        }
      }
      assert done + [] == done;
    }

    /** `run_complete_cycle`: the return leg only after at least one transfer.  The script's
     *  `except` branch is never taken, since `move_block` lets no exception out. */
    method RunCompleteCycle() returns (report: Option<SuctionSpec.Report>)
      modifies arm
      ensures SuctionSpec.Cycle(report, State()) == SuctionSpec.CompleteCycle(arm.fails, cfg, old(State()), blocks)
    {
      var transferred := TransferBlocks();
      if transferred > 0 {
        var returned := ReturnBlocks();
        return Some(SuctionSpec.Report(transferred, returned));
      }
      return None;
    }

    /** `run_transfer_only`: the transfer leg and its count. */
    method RunTransferOnly() returns (transferred: nat)
      modifies arm
      ensures var t := SuctionSpec.TransferFrom(arm.fails, cfg, old(State()), blocks, 0);
              transferred == Successes(t.outcomes) && State() == t.w
    {
      transferred := TransferBlocks();
    }

    /** `run_return_only`: the return leg and its count. */
    method RunReturnOnly() returns (returned: nat)
      modifies arm
      ensures var t := SuctionSpec.TransferFrom(arm.fails, cfg, old(State()), Swapped(blocks), 0);
              returned == Successes(t.outcomes) && State() == t.w
    {
      returned := ReturnBlocks();
    }

    /** `emergency_stop`. */
    method EmergencyStop()
      modifies arm
      ensures State() == SuctionSpec.EmergencyStop(arm.fails, old(State()))
    {
      if device {
        var _ := Send(arm, device, Suck(false));
      }
    }

    /** `go_to_safe_position`. */
    method GoToSafePosition() returns (ok: bool)
      modifies arm
      ensures SuctionSpec.Moved(ok, State()) == SuctionSpec.GoToSafePosition(arm.fails, cfg, old(State()))
    {
      var e := Send(arm, device, MoveTo(300.0, 0.0, cfg.safeHeight, 0.0));
      ok := e.None?;
    }

    /** `disconnect`. */
    method Disconnect()
      modifies this, arm
      ensures State() == SuctionSpec.Disconnect(arm.fails, cfg, old(State()))
    {
      if device {
        var e := Send(arm, device, Suck(false));
        if e.Some? {
          return;
        }
        var _ := GoToSafePosition();
        e := Send(arm, device, Close);
        if e.Some? {
          return;
        }
        device := false;
      }
    }
  }
}

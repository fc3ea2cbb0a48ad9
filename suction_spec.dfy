/** What each operation of pydobot_suction.py does, as a function of the failure oracle
 *  `fails` and the state before it, with the properties the script promises. */
module SuctionSpec {
  import opened Dobot

  /** The `self.blocks` table: four blocks, none of them with a rotation of its own. */
  function Table(): seq<Block> {
    [ Block(Position(288.34, -41.49, -41.33, None), Position(281.02, 93.43, -40.75, None)),
      Block(Position(286.20, 20.33, -41.25, None), Position(277.09, 154.90, -40.51, None)),
      Block(Position(346.69, -38.67, -42.27, None), Position(338.69, 98.97, -41.70, None)),
      Block(Position(344.29, 22.79, -42.85, None), Position(332.51, 158.89, -42.41, None)) ]
  }

  /** The body of `move_block`: every waypoint uses `self.rotation`, and the tool is the suction cup. */
  function Steps(cfg: Config, pick: Position, drop: Position): seq<Cmd> {
    Choreography(cfg, pick, drop, cfg.rotation, cfg.rotation, Suck(true), Suck(false))
  }

  /** The value `move_block` returns and the state it leaves. */
  datatype Moved = Moved(ok: bool, w: World)

  /** `move_block`: the eight calls of the `try`; when one raises, a single release attempt whose
   *  own exception is swallowed, and False.  No exception leaves it. */
  function MoveBlock(fails: set<nat>, cfg: Config, w: World, pick: Position, drop: Position): Moved {
    var s := RunSteps(fails, w, Steps(cfg, pick, drop));
    if s.exc.None? then Moved(true, s.w)
    else Moved(false, Attempt(fails, s.w, Suck(false)).w)
  }

  /** The results of one `move_block` per table entry, in order, and the state after the last. */
  datatype Tally = Tally(outcomes: seq<bool>, w: World)

  /** The loop of `transfer_blocks` from entry `i` on: one `move_block` per entry, in table
   *  order, whatever the earlier entries returned. */
  function TransferFrom(fails: set<nat>, cfg: Config, w: World, blocks: seq<Block>, i: nat): (r: Tally)
    requires i <= |blocks|
    ensures |r.outcomes| == |blocks| - i
    decreases |blocks| - i
  {
    if i == |blocks| then Tally([], w)
    else
      var m := MoveBlock(fails, cfg, w, blocks[i].pick, blocks[i].drop);
      var rest := TransferFrom(fails, cfg, m.w, blocks, i + 1);
      Tally([m.ok] + rest.outcomes, rest.w)
  }

  /** The `transfer_blocks` loop has handled entries 0..i-1 with results `done`, and the state is `cur`. */
  ghost predicate Progress(fails: set<nat>, cfg: Config, w0: World, blocks: seq<Block>, i: nat, done: seq<bool>, cur: World)
  {
    i <= |blocks|
    && var rest := TransferFrom(fails, cfg, cur, blocks, i);
       TransferFrom(fails, cfg, w0, blocks, 0) == Tally(done + rest.outcomes, rest.w)
  }

  /** One more `move_block`, on entry i, keeps the loop on course. */
  lemma ProgressStep(fails: set<nat>, cfg: Config, w0: World, blocks: seq<Block>, i: nat, done: seq<bool>,
                     cur: World, ok: bool, next: World)
    requires Progress(fails, cfg, w0, blocks, i, done, cur) && i < |blocks|
    requires Moved(ok, next) == MoveBlock(fails, cfg, cur, blocks[i].pick, blocks[i].drop)
    ensures Progress(fails, cfg, w0, blocks, i + 1, done + [ok], next)
  {
    var rest := TransferFrom(fails, cfg, next, blocks, i + 1);
    assert done + [ok] + rest.outcomes == done + ([ok] + rest.outcomes);
  }

  /** The counts `run_complete_cycle` reports (its elapsed time is not modelled). */
  datatype Report = Report(transferred: nat, returned: nat)

  /** The value `run_complete_cycle` returns (None for Python's None) and the state it leaves. */
  datatype Cycle = Cycle(report: Option<Report>, w: World)

  /** `run_complete_cycle`: the transfer leg, then the return leg (`return_blocks`, the table with
   *  pick and drop exchanged) only when at least one block was transferred. */
  function CompleteCycle(fails: set<nat>, cfg: Config, w: World, blocks: seq<Block>): Cycle {
    var t := TransferFrom(fails, cfg, w, blocks, 0);
    var n := Successes(t.outcomes);
    if n > 0 then
      var u := TransferFrom(fails, cfg, t.w, Swapped(blocks), 0);
      Cycle(Some(Report(n, Successes(u.outcomes))), u.w)
    else Cycle(None, t.w)
  }

  /** `emergency_stop`: one release when a device is set; an exception from it is caught. */
  function EmergencyStop(fails: set<nat>, w: World): World {
    if w.device then Attempt(fails, w, Suck(false)).w else w
  }

  /** `go_to_safe_position`: one move to (300, 0, safe_height, 0); True when it returned. */
  function GoToSafePosition(fails: set<nat>, cfg: Config, w: World): Moved {
    var s := Attempt(fails, w, MoveTo(300.0, 0.0, cfg.safeHeight, 0.0));
    Moved(s.exc.None?, s.w)
  }

  /** `disconnect`: release, safe position, close, forget the device; an exception from the release
   *  or the close ends it early, caught, with the device still set. */
  function Disconnect(fails: set<nat>, cfg: Config, w: World): World {
    if !w.device then w
    else
      var s := Attempt(fails, w, Suck(false));
      if s.exc.Some? then s.w
      else
        var g := GoToSafePosition(fails, cfg, s.w);
        var c := Attempt(fails, g.w, Close);
        if c.exc.Some? then c.w else c.w.(device := false)
  }

  /** `connect`: open the device, then switch suction off; an exception from either is re-raised. */
  function Connect(fails: set<nat>, w: World): Step {
    var o := OpenDevice(fails, w);
    if o.exc.Some? then o else Attempt(fails, o.w, Suck(false))
  }

  /** The calls of the blocks from entry `i` on when every one of them returns. */
  function Plan(cfg: Config, blocks: seq<Block>, i: nat): (p: seq<Cmd>)
    requires i <= |blocks|
    ensures |p| == 8 * (|blocks| - i)
    decreases |blocks| - i
  {
    if i == |blocks| then [] else Steps(cfg, blocks[i].pick, blocks[i].drop) + Plan(cfg, blocks, i + 1)
  }

  // ---------------------------------------------------------------- move_block

  /** When no call raises, `move_block` returns True after exactly the eight calls, all at
   *  `self.rotation`, and leaves the suction off. */
  lemma MoveBlockSucceeds(fails: set<nat>, cfg: Config, w: World, pick: Position, drop: Position)
    requires w.device && Clean(fails, |w.log|, 8)
    ensures MoveBlock(fails, cfg, w, pick, drop) == Moved(true, w.(log := w.log + [
      MoveTo(pick.x, pick.y, cfg.safeHeight, cfg.rotation),
      MoveTo(pick.x, pick.y, pick.z, cfg.rotation),
      Suck(true),
      MoveTo(pick.x, pick.y, cfg.safeHeight, cfg.rotation),
      MoveTo(drop.x, drop.y, cfg.safeHeight, cfg.rotation),
      MoveTo(drop.x, drop.y, drop.z, cfg.rotation),
      Suck(false),
      MoveTo(drop.x, drop.y, cfg.safeHeight, cfg.rotation)]))
    ensures Effector(fails, MoveBlock(fails, cfg, w, pick, drop).w.log) == Some(false)
  {
    RunStepsClean(fails, w, Steps(cfg, pick, drop));
    ChoreographyReleases(fails, w.log, cfg, pick, drop, cfg.rotation, cfg.rotation, Suck(true), Suck(false));
  }

  /** When call k of the eight raises, `move_block` returns False after calls 0..k and one
   *  release; if that release returns, the suction is off. */
  lemma MoveBlockFailsAt(fails: set<nat>, cfg: Config, w: World, pick: Position, drop: Position, k: nat)
    requires w.device && k < 8
    requires Clean(fails, |w.log|, k) && |w.log| + k in fails
    ensures MoveBlock(fails, cfg, w, pick, drop)
         == Moved(false, w.(log := w.log + Steps(cfg, pick, drop)[..k + 1] + [Suck(false)]))
    ensures |w.log| + k + 1 !in fails ==>
              Effector(fails, MoveBlock(fails, cfg, w, pick, drop).w.log) == Some(false)
  {
    RunStepsFailsAt(fails, w, Steps(cfg, pick, drop), k);
  }

  /** Without a device every call raises AttributeError, which `move_block` turns into False. */
  lemma MoveBlockWithoutDevice(fails: set<nat>, cfg: Config, w: World, pick: Position, drop: Position)
    requires !w.device
    ensures MoveBlock(fails, cfg, w, pick, drop) == Moved(false, w)
  {
  }

  // ------------------------------------------------------- transfer and return

  /** When no call raises, every block is moved: all True, and the log gains each entry's eight
   *  calls in table order; afterwards the suction is off. */
  lemma {:induction false} TransferClean(fails: set<nat>, cfg: Config, w: World, blocks: seq<Block>, i: nat)
    requires i <= |blocks|
    requires w.device && Clean(fails, |w.log|, 8 * (|blocks| - i))
    ensures TransferFrom(fails, cfg, w, blocks, i)
         == Tally(seq(|blocks| - i, _ => true), w.(log := w.log + Plan(cfg, blocks, i)))
    ensures i < |blocks| ==> Effector(fails, TransferFrom(fails, cfg, w, blocks, i).w.log) == Some(false)
    decreases |blocks| - i
  {
    if i < |blocks| {
      var b := blocks[i];
      MoveBlockSucceeds(fails, cfg, w, b.pick, b.drop);
      var m := MoveBlock(fails, cfg, w, b.pick, b.drop);
      assert m.w == w.(log := w.log + Steps(cfg, b.pick, b.drop));
      TransferClean(fails, cfg, m.w, blocks, i + 1);
      assert w.log + Steps(cfg, b.pick, b.drop) + Plan(cfg, blocks, i + 1) == w.log + Plan(cfg, blocks, i);
      assert [true] + seq(|blocks| - (i + 1), _ => true) == seq(|blocks| - i, _ => true);
    }
  }

  /** With no device, every block is still attempted, every attempt returns False and nothing
   *  reaches the arm. */
  lemma {:induction false} TransferWithoutDevice(fails: set<nat>, cfg: Config, w: World, blocks: seq<Block>, i: nat)
    requires i <= |blocks| && !w.device
    ensures TransferFrom(fails, cfg, w, blocks, i) == Tally(seq(|blocks| - i, _ => false), w)
    decreases |blocks| - i
  {
    if i < |blocks| {
      TransferWithoutDevice(fails, cfg, w, blocks, i + 1);
      assert [false] + seq(|blocks| - (i + 1), _ => false) == seq(|blocks| - i, _ => false);
    }
  }

  /** Four blocks, and the second block's suction call raises: that block fails after one release,
   *  the other three are still moved, and three transfers are counted. */
  lemma TransferSecondBlockFails(cfg: Config, w: World, blocks: seq<Block>)
    requires w.device && |blocks| == 4
    ensures var t := TransferFrom({|w.log| + 10}, cfg, w, blocks, 0);
            t.outcomes == [true, false, true, true] && Successes(t.outcomes) == 3
  {
    var fails := {|w.log| + 10};
    var m0 := MoveBlock(fails, cfg, w, blocks[0].pick, blocks[0].drop);
    assert m0.ok && m0.w.device && |m0.w.log| == |w.log| + 8 by {
      MoveBlockSucceeds(fails, cfg, w, blocks[0].pick, blocks[0].drop);
    }
    var m1 := MoveBlock(fails, cfg, m0.w, blocks[1].pick, blocks[1].drop);
    assert !m1.ok && m1.w.device && |m1.w.log| == |w.log| + 12 by {
      MoveBlockFailsAt(fails, cfg, m0.w, blocks[1].pick, blocks[1].drop, 2);
    }
    var t2 := TransferFrom(fails, cfg, m1.w, blocks, 2);
    assert t2.outcomes == [true, true] by {
      TransferClean(fails, cfg, m1.w, blocks, 2);
    }
    var t1 := TransferFrom(fails, cfg, m0.w, blocks, 1);
    assert t1.outcomes == [false] + t2.outcomes;
    var t0 := TransferFrom(fails, cfg, w, blocks, 0);
    assert t0.outcomes == [true] + t1.outcomes;
    assert t0.outcomes == [true, false, true, true];
    assert Successes([true]) == 1;
    assert Successes([true, true]) == 2 by { assert [true, true][1..] == [true]; }
    assert Successes([false, true, true]) == 2 by { assert [false, true, true][1..] == [true, true]; }
    assert Successes(t0.outcomes) == 3 by { assert t0.outcomes[1..] == [false, true, true]; }
  }

  // ------------------------------------------------------------------- the cycle

  /** The return leg runs exactly when the transfer leg counted a success; otherwise the cycle
   *  returns None and makes no call after the transfer leg.  The report holds the two legs'
   *  success counts, each at most the table size. */
  lemma CycleReturnsIffTransferred(fails: set<nat>, cfg: Config, w: World, blocks: seq<Block>)
    ensures var t := TransferFrom(fails, cfg, w, blocks, 0);
            var c := CompleteCycle(fails, cfg, w, blocks);
            (c.report.Some? <==> Successes(t.outcomes) > 0)
            && (c.report.None? ==> c.w == t.w)
            && (c.report.Some? ==>
                  c.report.value.transferred == Successes(t.outcomes)
                  && c.report.value.returned == Successes(TransferFrom(fails, cfg, t.w, Swapped(blocks), 0).outcomes)
                  && c.report.value.transferred <= |blocks| && c.report.value.returned <= |blocks|
                  && c.w == TransferFrom(fails, cfg, t.w, Swapped(blocks), 0).w)
  {
  }

  /** When no call raises, the cycle moves every block there and back: it reports all of them
   *  both ways, the log gains the transfer leg's calls and then the return leg's, and the suction
   *  ends off. */
  lemma CycleClean(fails: set<nat>, cfg: Config, w: World, blocks: seq<Block>)
    requires w.device && |blocks| > 0 && Clean(fails, |w.log|, 16 * |blocks|)
    ensures CompleteCycle(fails, cfg, w, blocks)
         == Cycle(Some(Report(|blocks|, |blocks|)),
                  w.(log := w.log + Plan(cfg, blocks, 0) + Plan(cfg, Swapped(blocks), 0)))
    ensures Effector(fails, CompleteCycle(fails, cfg, w, blocks).w.log) == Some(false)
  {
    TransferClean(fails, cfg, w, blocks, 0);
    var t := TransferFrom(fails, cfg, w, blocks, 0);
    TransferClean(fails, cfg, t.w, Swapped(blocks), 0);
  }

  /** With no device nothing is transferred, so the return leg is skipped and the cycle returns None. */
  lemma CycleWithoutDevice(fails: set<nat>, cfg: Config, w: World, blocks: seq<Block>)
    requires !w.device
    ensures CompleteCycle(fails, cfg, w, blocks) == Cycle(None, w)
  {
    TransferWithoutDevice(fails, cfg, w, blocks, 0);
  }

  // ------------------------------------------------- emergency stop, disconnect, connect

  /** `emergency_stop` makes one release call when a device is set and none otherwise, never
   *  raises and leaves `self.device` alone; a release that returns leaves the suction off. */
  lemma EmergencyStopReleases(fails: set<nat>, w: World)
    ensures EmergencyStop(fails, w).device == w.device
    ensures EmergencyStop(fails, w).log == w.log + (if w.device then [Suck(false)] else [])
    ensures w.device && |w.log| !in fails ==> Effector(fails, EmergencyStop(fails, w).log) == Some(false)
  {
  }

  /** Two emergency stops in a row are harmless: two release calls, and the suction is off as
   *  soon as either of them returned. */
  lemma EmergencyStopTwice(fails: set<nat>, w: World)
    requires w.device
    ensures EmergencyStop(fails, EmergencyStop(fails, w)).log == w.log + [Suck(false), Suck(false)]
    ensures |w.log| !in fails || |w.log| + 1 !in fails ==>
              Effector(fails, EmergencyStop(fails, EmergencyStop(fails, w)).log) == Some(false)
  {
    var once := w.log + [Suck(false)];
    if |w.log| + 1 in fails {
      EffectorInert(fails, once, Suck(false));
    }
  }

  /** `go_to_safe_position` moves to (300, 0, safe_height, 0) and returns whether that call returned. */
  lemma GoToSafePositionMoves(fails: set<nat>, cfg: Config, w: World)
    ensures var g := GoToSafePosition(fails, cfg, w);
            g.w.device == w.device
            && g.w.log == w.log + (if w.device then [MoveTo(300.0, 0.0, cfg.safeHeight, 0.0)] else [])
            && (g.ok <==> w.device && |w.log| !in fails)
  {
  }

  /** `disconnect` with a device: release, safe position, close; the device is forgotten exactly
   *  when the release and the close both returned.  Without a device it does nothing. */
  lemma DisconnectOutcome(fails: set<nat>, cfg: Config, w: World)
    ensures !w.device ==> Disconnect(fails, cfg, w) == w
    ensures w.device ==>
      var d := Disconnect(fails, cfg, w);
      (d.device <==> |w.log| in fails || |w.log| + 2 in fails)
      && d.log == w.log + (if |w.log| in fails then [Suck(false)]
                           else [Suck(false), MoveTo(300.0, 0.0, cfg.safeHeight, 0.0), Close])
  {
  }

  /** The device is only ever forgotten after a release that returned: when `disconnect` clears
   *  `self.device`, the suction was off at the close. */
  lemma DisconnectReleasesBeforeClose(fails: set<nat>, cfg: Config, w: World)
    requires w.device && !Disconnect(fails, cfg, w).device
    ensures var d := Disconnect(fails, cfg, w);
            |d.log| == |w.log| + 3 && d.log[|d.log| - 1] == Close
            && Effector(fails, d.log[..|d.log| - 1]) == Some(false)
  {
    var d := Disconnect(fails, cfg, w);
    var released := w.log + [Suck(false)];
    EffectorReleased(fails, w.log, Suck(false));
    EffectorInert(fails, released, MoveTo(300.0, 0.0, cfg.safeHeight, 0.0));
    assert d.log[..|d.log| - 1] == released + [MoveTo(300.0, 0.0, cfg.safeHeight, 0.0)];
  }

  /** `connect` opens the device and switches suction off; `self.device` is set once the open
   *  returned, even if the release then raised; it returns normally exactly when both calls
   *  returned, and then the suction is off. */
  lemma ConnectOutcome(fails: set<nat>, w: World)
    ensures var c := Connect(fails, w);
            (c.w.device <==> w.device || |w.log| !in fails)
            && c.w.log == w.log + (if |w.log| in fails then [Open] else [Open, Suck(false)])
            && (c.exc.None? <==> |w.log| !in fails && |w.log| + 1 !in fails)
            && (c.exc.None? ==> Effector(fails, c.w.log) == Some(false))
  {
  }
}

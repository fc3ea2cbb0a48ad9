/** The pydobot `Dobot` device as the two palletizer scripts use it: a command sink
 *  that records every call it is asked to make and may raise on any of them.
 *
 *  The serial protocol, the kinematics and the blocking motion of the real driver
 *  are not modelled.  What the scripts can observe is whether `self.device` is set
 *  and which calls were attempted; which of those calls raise is decided by an
 *  oracle, the set of log positions whose call fails. */
module Dobot {

  datatype Option<T> = None | Some(value: T)

  /** The Python exceptions that reach the palletizer code. */
  datatype Exc =
    | DeviceError     // raised by the driver on a failed call
    | AttributeError  // a call through `self.device` while it is None
    | TypeError       // a call of a value that is not callable

  /** What a Python call produced: a returned value or an exception. */
  datatype Outcome<T> = Returned(value: T) | Raised(exc: Exc)

  /** A call on the driver.  `Open` is the `Dobot(port=...)` constructor. */
  datatype Cmd =
    | Open
    | MoveTo(x: real, y: real, z: real, r: real)
    | Suck(on: bool)
    | Grip(on: bool)
    | Close

  predicate IsActuation(c: Cmd) { c.Suck? || c.Grip? }

  /** One coordinate record of a block table; `r` is present only where the table gives a rotation. */
  datatype Position = Position(x: real, y: real, z: real, r: Option<real>)

  /** One entry of a block table: where the block is picked and where it is dropped. */
  datatype Block = Block(pick: Position, drop: Position)

  /** The constructor's `safe_height` and `rotation`. */
  datatype Config = Config(safeHeight: real, rotation: real)

  /** What the scripts observe: whether `self.device` is set, and every call attempted so far. */
  datatype World = World(device: bool, log: seq<Cmd>)

  /** The state after one call, and the exception it raised, if any. */
  datatype Step = Step(exc: Option<Exc>, w: World)

  /** A call `self.device.c(...)`.  With no device it raises AttributeError and reaches nothing;
   *  otherwise the call is logged and raises exactly when its log position is in `fails`. */
  function Attempt(fails: set<nat>, w: World, c: Cmd): Step {
    if !w.device then Step(Some(AttributeError), w)
    else Step(if |w.log| in fails then Some(DeviceError) else None, w.(log := w.log + [c]))
  }

  /** `self.device = Dobot(port=...)`: the attribute is assigned only when the constructor returns. */
  function OpenDevice(fails: set<nat>, w: World): Step {
    var w1 := w.(log := w.log + [Open]);
    if |w.log| in fails then Step(Some(DeviceError), w1) else Step(None, w1.(device := true))
  }

  /** No call at log positions `from` .. `from + n - 1` raises. */
  predicate Clean(fails: set<nat>, from: nat, n: nat) {
    forall i :: from <= i < from + n ==> i !in fails
  }

  /** Where a straight-line run of calls inside a `try` stopped: `done` calls returned, and
   *  `exc` is what the next one raised (None when all of them returned). */
  datatype Stop = Stop(done: nat, exc: Option<Exc>, w: World)

  function Shift(s: Stop, k: nat): Stop { s.(done := s.done + k) }

  /** Makes the calls `cmds` in order until one raises. */
  function RunSteps(fails: set<nat>, w: World, cmds: seq<Cmd>): Stop
    decreases |cmds|
  {
    if cmds == [] then Stop(0, None, w)
    else
      var s := Attempt(fails, w, cmds[0]);
      if s.exc.Some? then Stop(0, s.exc, s.w)
      else Shift(RunSteps(fails, s.w, cmds[1..]), 1)
  }

  /** A run stops at the first call that raises: every call before it returned, that call (if
   *  any) raised, and the log holds exactly the calls made.  Without a device the first call
   *  raises AttributeError and nothing is logged. */
  lemma {:induction false} RunStepsStops(fails: set<nat>, w: World, cmds: seq<Cmd>)
    ensures var r := RunSteps(fails, w, cmds);
      && r.done <= |cmds|
      && (r.exc.None? <==> r.done == |cmds|)
      && r.w.device == w.device
      && (!w.device && cmds != [] ==> r == Stop(0, Some(AttributeError), w))
      && (w.device ==> r.w.log == w.log + cmds[..if r.exc.None? then r.done else r.done + 1])
      && (w.device ==> Clean(fails, |w.log|, r.done))
      && (w.device && r.exc.Some? ==> r.exc == Some(DeviceError) && |w.log| + r.done in fails)
    decreases |cmds|
  {
    if cmds != [] {
      var s := Attempt(fails, w, cmds[0]);
      if s.exc.None? {
        RunStepsStops(fails, s.w, cmds[1..]);
        var r := RunSteps(fails, s.w, cmds[1..]);
        if w.device {
          var n := if r.exc.None? then r.done else r.done + 1;
          assert s.w.log + cmds[1..][..n] == w.log + cmds[..n + 1];
        }
      }
    }
  }

  /** A run of calls on a connected device where none raises makes them all. */
  lemma RunStepsClean(fails: set<nat>, w: World, cmds: seq<Cmd>)
    requires w.device && Clean(fails, |w.log|, |cmds|)
    ensures RunSteps(fails, w, cmds) == Stop(|cmds|, None, w.(log := w.log + cmds))
  {
    RunStepsStops(fails, w, cmds);
    assert cmds[..|cmds|] == cmds;
  }

  /** A run on a connected device stops at the first call that raises, after logging it. */
  lemma RunStepsFailsAt(fails: set<nat>, w: World, cmds: seq<Cmd>, k: nat)
    requires w.device && k < |cmds|
    requires Clean(fails, |w.log|, k) && |w.log| + k in fails
    ensures RunSteps(fails, w, cmds) == Stop(k, Some(DeviceError), w.(log := w.log + cmds[..k + 1]))
  {
    RunStepsStops(fails, w, cmds);
    var r := RunSteps(fails, w, cmds);
    assert r.done == k;
  }

  /** The end-effector state a log leaves: the setting of the last suction or grip call that did
   *  not raise (a call that raised is taken to have had no effect on the tool). */
  function Effector(fails: set<nat>, log: seq<Cmd>): Option<bool>
    decreases |log|
  {
    if log == [] then None
    else
      var i := |log| - 1;
      if IsActuation(log[i]) && i !in fails then Some(log[i].on) else Effector(fails, log[..i])
  }

  /** A call that is not an actuation, or that raised, leaves the end-effector as it was. */
  lemma EffectorInert(fails: set<nat>, log: seq<Cmd>, c: Cmd)
    requires !IsActuation(c) || |log| in fails
    ensures Effector(fails, log + [c]) == Effector(fails, log)
  {
    assert (log + [c])[..|log|] == log;
  }

  /** An accepted release leaves the end-effector off. */
  lemma EffectorReleased(fails: set<nat>, log: seq<Cmd>, c: Cmd)
    requires IsActuation(c) && !c.on && |log| !in fails
    ensures Effector(fails, log + [c]) == Some(false)
  {
  }

  /** The number of True results in a run of `move_block` calls. */
  function Successes(outcomes: seq<bool>): (n: nat)
    ensures n <= |outcomes|
    ensures n == |outcomes| <==> forall i :: 0 <= i < |outcomes| ==> outcomes[i]
    ensures n == 0 <==> forall i :: 0 <= i < |outcomes| ==> !outcomes[i]
  {
    if outcomes == [] then 0
    else (if outcomes[0] then 1 else 0) + Successes(outcomes[1..])
  }

  lemma {:induction false} SuccessesAppend(outcomes: seq<bool>, b: bool)
    ensures Successes(outcomes + [b]) == Successes(outcomes) + (if b then 1 else 0)
  {
    if outcomes != [] {
      assert (outcomes + [b])[1..] == outcomes[1..] + [b];
      SuccessesAppend(outcomes[1..], b);
    }
  }

  /** The return leg's table: every entry with its pick and drop positions exchanged, in the same order. */
  function Swapped(blocks: seq<Block>): (r: seq<Block>)
    ensures |r| == |blocks|
    ensures forall i :: 0 <= i < |blocks| ==> r[i].pick == blocks[i].drop && r[i].drop == blocks[i].pick
  {
    if blocks == [] then [] else [Block(blocks[0].drop, blocks[0].pick)] + Swapped(blocks[1..])
  }

  /** The eight calls `move_block` makes for one block: above the pick point, down, engage, up,
   *  above the drop point, down, release, up.  `pickR` and `dropR` are the rotations used at each end. */
  function Choreography(cfg: Config, pick: Position, drop: Position, pickR: real, dropR: real,
                        engage: Cmd, release: Cmd): seq<Cmd>
  {
    [ MoveTo(pick.x, pick.y, cfg.safeHeight, pickR),
      MoveTo(pick.x, pick.y, pick.z, pickR),
      engage,
      MoveTo(pick.x, pick.y, cfg.safeHeight, pickR),
      MoveTo(drop.x, drop.y, cfg.safeHeight, dropR),
      MoveTo(drop.x, drop.y, drop.z, dropR),
      release,
      MoveTo(drop.x, drop.y, cfg.safeHeight, dropR) ]
  }

  /** After all eight calls return, the release (the seventh call) is the last word on the end-effector. */
  lemma ChoreographyReleases(fails: set<nat>, log: seq<Cmd>, cfg: Config, pick: Position, drop: Position,
                             pickR: real, dropR: real, engage: Cmd, release: Cmd)
    requires IsActuation(release) && !release.on
    requires Clean(fails, |log|, 8)
    ensures Effector(fails, log + Choreography(cfg, pick, drop, pickR, dropR, engage, release)) == Some(false)
  {
    var steps := Choreography(cfg, pick, drop, pickR, dropR, engage, release);
    EffectorReleased(fails, log + steps[..6], release);
    assert log + steps[..6] + [release] == log + steps[..7];
    EffectorInert(fails, log + steps[..7], steps[7]);
    assert log + steps[..7] + [steps[7]] == log + steps;
  }

  /** The driver seen from the script: every call is recorded in `log`, and the call at log
   *  position i raises exactly when i is in `fails`. */
  class Arm {
    var log: seq<Cmd>
    const fails: set<nat>

    constructor (fails: set<nat>)
      ensures log == [] && this.fails == fails
    {
      log := [];
      this.fails := fails;
    }

    method Issue(c: Cmd) returns (raised: bool)
      modifies this
      ensures log == old(log) + [c]
      ensures raised <==> |old(log)| in fails
    {
      raised := |log| in fails;
      log := log + [c];
    }
  }

  /** `self.device.c(...)` on `arm`, where `device` says whether `self.device` is set. */
  method Send(arm: Arm, device: bool, c: Cmd) returns (e: Option<Exc>)
    modifies arm
    ensures Step(e, World(device, arm.log)) == Attempt(arm.fails, World(device, old(arm.log)), c)
  {
    if !device {
      return Some(AttributeError);
    }
    var raised := arm.Issue(c);
    e := if raised then Some(DeviceError) else None;
  }

  /** Makes call `j` of the straight-line run `plan` that started in `w0`, and says how that run
   *  goes on: to call j + 1, or stopped at j with the exception `e`. */
  method Advance(arm: Arm, device: bool, c: Cmd, ghost w0: World, ghost plan: seq<Cmd>, j: nat)
    returns (e: Option<Exc>)
    requires j < |plan| && plan[j] == c
    requires RunSteps(arm.fails, w0, plan) == Shift(RunSteps(arm.fails, World(device, arm.log), plan[j..]), j)
    modifies arm
    ensures e.None? ==>
      RunSteps(arm.fails, w0, plan) == Shift(RunSteps(arm.fails, World(device, arm.log), plan[j + 1..]), j + 1)
    ensures e.Some? ==> RunSteps(arm.fails, w0, plan) == Stop(j, e, World(device, arm.log))
  {
    e := Send(arm, device, c);
    assert plan[j..][1..] == plan[j + 1..];
  }
}

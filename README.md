# Dobot palletizer, modelled in Dafny

Two Python scripts drive a Dobot Magician arm through the pydobot driver. Each one moves four
blocks from their pick positions to their drop positions (the transfer leg) and back again
(the return leg). `pydobot_suction.py` uses the suction cup. `pydobot_gripper.py` uses the
gripper. The gripper script also gives each drop position its own rotation and keeps a
separate return table.

The model has three parts.

- `dobot.dfy` (module `Dobot`) models the driver as the scripts see it.
  - Every call the script attempts is appended to a log.
  - A failure oracle `fails` (a set of log positions) decides which of those calls raise.
  - A call through `self.device` while it is None raises AttributeError and reaches nothing.
  - `Effector` reads from a log whether the suction cup or gripper is engaged.
  - The same module holds the straight-line run of calls inside a `try` (`RunSteps`), the success count (`Successes`) and the pick/drop swap of a table (`Swapped`).
- `suction_spec.dfy` and `gripper_spec.dfy` (modules `SuctionSpec`, `GripperSpec`) state what each
  operation does, as pure functions of the oracle and the state before it. The lemmas about
  those functions carry the properties the scripts promise.
- `suction.dfy` and `gripper.dfy` (modules `Suction`, `Gripper`) hold each script's
  `DobotPalletizer` class as `class Palletizer`. Its methods change the arm's log and the device
  field step by step, as the Python does. Each method is proved to leave exactly the state, and
  return exactly the value, that the spec function named in its contract gives.

Python exceptions are values of `Exc`, and the `except` blocks are ordinary branches. A method
whose Python counterpart returns a value or raises returns an `Outcome<T>` (`Returned` or
`Raised`). `Connect`, whose Python counterpart returns nothing, returns `Option<Exc>`: `Some`
of the exception it re-raises, or `None`. The records of a single call (`Step`), of a run of
calls (`Stop`) and of a loop (`Tally`) likewise hold the exception they ended with, if any, as
an `Option<Exc>`.

## Model

| member | source | states |
|---|---|---|
| Dobot.RunStepsStops | pydobot_suction.py:40-87 | a run of calls inside a `try` stops at the first call that raises; every earlier call returned, the log holds exactly the calls made, and without a device the first call raises AttributeError with nothing logged |
| Dobot.RunStepsClean | pydobot_suction.py:40-87 | when no call raises, every call of the run is made, in order |
| Dobot.RunStepsFailsAt | pydobot_suction.py:40-89 | when call k raises, calls 0..k were made and the run stops with that exception |
| Dobot.Attempt | pydobot_suction.py:31 | one `self.device.<call>`: with no device it raises AttributeError and nothing is logged; otherwise the call is logged and raises exactly when the failure oracle names its log position |
| Dobot.OpenDevice | pydobot_suction.py:30 | `self.device = Dobot(port=...)`: the open is logged, and the device is set only when it did not raise |
| Dobot.RunSteps | pydobot_suction.py:47-87 | the straight-line calls of a `try` body, made in order until the first that raises, giving how many returned, the exception, and the new state |
| Dobot.Choreography | pydobot_suction.py:48-83 | the eight calls for one block: above pick, down, engage, up, above drop, down, release, up, with the pick and drop rotations as given |
| Dobot.Successes | pydobot_suction.py:101-109 | the count of True results is at most the number of results, equals it iff all are True, and is 0 iff none is True |
| Dobot.SuccessesAppend | pydobot_suction.py:103-104 | counting one more result adds one exactly when it is True |
| Dobot.Swapped | pydobot_suction.py:111-118 | the return leg's table has the same length, and each entry picks at the original drop position and drops at the original pick position |
| Dobot.EffectorInert | pydobot_suction.py:83 | a call that is not a suction or grip call, or that raised, does not change the tool state |
| Dobot.EffectorReleased | pydobot_suction.py:78 | an accepted release leaves the tool off |
| Dobot.ChoreographyReleases | pydobot_suction.py:76-84 | after the eight calls of one block all return, the tool is off |
| Dobot.Send | pydobot_suction.py:30-31 | a call on the device appends to the arm's log and raises exactly when the oracle says so; without a device it raises AttributeError and changes nothing |
| Dobot.Advance | pydobot_suction.py:40-87 | making call j of a `try` block either keeps the run going at call j+1 or ends it at j with the call's exception |
| SuctionSpec.TransferFrom | pydobot_suction.py:97-109 | one result per table entry from the start index on |
| SuctionSpec.Table | pydobot_suction.py:13-22 | the four blocks' pick and drop coordinates, none with its own rotation |
| SuctionSpec.Steps | pydobot_suction.py:48-83 | the eight calls of `move_block`, all at `self.rotation`, with `suck(True)` and `suck(False)` |
| SuctionSpec.MoveBlock | pydobot_suction.py:37-95 | the eight calls until one raises; then one release whose exception is swallowed, and False; otherwise True |
| SuctionSpec.CompleteCycle | pydobot_suction.py:126-158 | the transfer leg, then the return leg over the swapped table only when some transfer succeeded, reporting both counts; None otherwise |
| SuctionSpec.EmergencyStop | pydobot_suction.py:200-208 | one `suck(False)` when a device is set, its exception swallowed |
| SuctionSpec.GoToSafePosition | pydobot_suction.py:210-221 | one move to (300, 0, safe_height, 0); True iff it returned |
| SuctionSpec.Disconnect | pydobot_suction.py:223-234 | with a device: release, safe position, close, then forget the device; an exception from the release or the close ends it early with the device still set |
| SuctionSpec.Connect | pydobot_suction.py:26-35 | open the device, then `suck(False)`; the first exception is re-raised |
| SuctionSpec.Plan | pydobot_suction.py:97-109 | eight calls per remaining table entry |
| SuctionSpec.ProgressStep | pydobot_suction.py:102-107 | one more `move_block` keeps the transfer loop on course towards its final tally |
| SuctionSpec.MoveBlockSucceeds | pydobot_suction.py:37-87 | with no call raising, `move_block` returns True after exactly the eight calls (above, down, suck on, up, above drop, down, suck off, up), all at `self.rotation`, and the suction ends off |
| SuctionSpec.MoveBlockFailsAt | pydobot_suction.py:89-95 | when call k raises, `move_block` returns False after calls 0..k and one release, whose own exception is swallowed; the suction is off if that release returned |
| SuctionSpec.MoveBlockWithoutDevice | pydobot_suction.py:89-95 | with no device, `move_block` returns False and changes nothing |
| SuctionSpec.TransferClean | pydobot_suction.py:97-109 | with no call raising, every block is transferred, the log gains each block's eight calls in table order, and the suction ends off |
| SuctionSpec.TransferWithoutDevice | pydobot_suction.py:97-109 | with no device, every block is attempted, every attempt fails and nothing reaches the arm |
| SuctionSpec.TransferSecondBlockFails | pydobot_suction.py:101-109 | when the second block's suction call raises, the loop goes on: results True, False, True, True and a count of 3 |
| SuctionSpec.CycleReturnsIffTransferred | pydobot_suction.py:126-158 | the return leg runs and a report is returned iff the transfer leg counted a success; the counts are the two legs' success counts, each at most the table size; otherwise nothing is called after the transfer leg |
| SuctionSpec.CycleClean | pydobot_suction.py:126-150 | with no call raising, the cycle reports every block both ways, the log holds the transfer leg and then the return leg, and the suction ends off |
| SuctionSpec.CycleWithoutDevice | pydobot_suction.py:133-153 | with no device, nothing is transferred and the cycle returns None |
| SuctionSpec.EmergencyStopReleases | pydobot_suction.py:200-208 | one release when a device is set and none otherwise; it never raises and leaves the device field alone |
| SuctionSpec.EmergencyStopTwice | pydobot_suction.py:200-208 | two emergency stops make two releases, and the suction is off once either returned |
| SuctionSpec.GoToSafePositionMoves | pydobot_suction.py:210-221 | one move to (300, 0, safe_height, 0); the result is True iff that call returned |
| SuctionSpec.DisconnectOutcome | pydobot_suction.py:223-234 | release, safe position, close; the device is cleared iff the release and the close both returned; with no device nothing happens |
| SuctionSpec.DisconnectReleasesBeforeClose | pydobot_suction.py:223-234 | whenever the device is cleared, the suction was off at the close |
| SuctionSpec.ConnectOutcome | pydobot_suction.py:26-35 | the device is set once the open returned; suction is switched off next; `connect` returns normally iff both calls returned, and then the suction is off |
| Suction.Palletizer.constructor | pydobot_suction.py:5-22 | the table is the script's four blocks and no device is set |
| Suction.Palletizer.Connect | pydobot_suction.py:26-35 | new state and re-raised exception are those of `SuctionSpec.Connect` |
| Suction.Palletizer.Recover | pydobot_suction.py:89-95 | the `except` block: one release and False, as `SuctionSpec.MoveBlock` gives |
| Suction.Palletizer.MoveBlock | pydobot_suction.py:37-95 | result and new state are those of `SuctionSpec.MoveBlock` |
| Suction.Palletizer.TransferBlocks | pydobot_suction.py:97-109 | the count is the success count of `SuctionSpec.TransferFrom` over the table, so at most the table size, and the new state is its final state |
| Suction.Palletizer.ReturnBlocks | pydobot_suction.py:111-124 | the same for the swapped table, so at most the table size |
| Suction.Palletizer.RunCompleteCycle | pydobot_suction.py:126-158 | report and new state are those of `SuctionSpec.CompleteCycle` |
| Suction.Palletizer.RunTransferOnly | pydobot_suction.py:160-178 | count and new state are those of the transfer leg |
| Suction.Palletizer.RunReturnOnly | pydobot_suction.py:180-198 | count and new state are those of the return leg |
| Suction.Palletizer.EmergencyStop | pydobot_suction.py:200-208 | new state is `SuctionSpec.EmergencyStop` |
| Suction.Palletizer.GoToSafePosition | pydobot_suction.py:210-221 | result and new state are those of `SuctionSpec.GoToSafePosition` |
| Suction.Palletizer.Disconnect | pydobot_suction.py:223-234 | new state is `SuctionSpec.Disconnect` |
| GripperSpec.TransferFrom | pydobot_gripper.py:102-114 | when nothing raised, one result per table entry from the start index on; when a `move_block` raised, fewer results than entries, because the loop stopped |
| GripperSpec.Table | pydobot_gripper.py:13-22 | the four blocks' coordinates, each drop position with its own rotation |
| GripperSpec.ReturnTable | pydobot_gripper.py:25-34 | the return list as written out in the script |
| GripperSpec.RotationOf | pydobot_gripper.py:55-57 | the position's `r` when present, else `self.rotation` |
| GripperSpec.Steps | pydobot_gripper.py:61-91 | the eight calls of `move_block`, the pick ones at the pick rotation and the drop ones at the drop rotation, with `grip(True)` and `grip(False)` |
| GripperSpec.MoveBlock | pydobot_gripper.py:49-100 | the eight calls until one raises; then an unguarded release whose exception leaves `move_block`, else False; otherwise True |
| GripperSpec.CompleteCycle | pydobot_gripper.py:130-162 | as written: an exception from the transfer leg, or any success (the call of the list raises TypeError), leads to the emergency stop; None on every path |
| GripperSpec.IntendedCycle | pydobot_gripper.py:135-162 | as evidently intended: the return leg over the return list after any success, both counts reported, and any exception leading to the emergency stop and None |
| GripperSpec.EmergencyStop | pydobot_gripper.py:164-172 | one `grip(False)` when a device is set, its exception swallowed |
| GripperSpec.Disconnect | pydobot_gripper.py:174-184 | with a device: release, close, then forget the device; an exception from either ends it early with the device still set |
| GripperSpec.Connect | pydobot_gripper.py:38-47 | open the device, then `grip(False)`; the first exception is re-raised |
| GripperSpec.Plan | pydobot_gripper.py:102-114 | eight calls per remaining table entry |
| GripperSpec.ProgressStep | pydobot_gripper.py:107-111 | one more `move_block` either keeps the loop on course or ends it with the exception it raised |
| GripperSpec.ReturnTableIsSwapped | pydobot_gripper.py:13-34 | the return list is the block table with pick and drop exchanged, rotations included |
| GripperSpec.MoveBlockSucceeds | pydobot_gripper.py:49-95 | with no call raising, `move_block` returns True after the eight calls; the pick waypoints use the pick position's `r` and the drop waypoints the drop position's `r`, each defaulting to `self.rotation`; the gripper ends open |
| GripperSpec.MoveBlockClean | pydobot_gripper.py:59-95 | with no call raising, `move_block` returns True after exactly its eight calls and the gripper ends open |
| GripperSpec.MoveBlockFailsAt | pydobot_gripper.py:97-100 | when call k raises, one release follows calls 0..k; `move_block` returns False if the release returned, and raises the release's exception if the release raised too |
| GripperSpec.MoveBlockWithoutDevice | pydobot_gripper.py:97-100 | with no device, the unguarded release raises AttributeError out of `move_block`, and nothing changes |
| GripperSpec.TransferClean | pydobot_gripper.py:102-114 | with no call raising, every block is transferred, nothing is raised, the log gains each block's eight calls in table order, and the gripper ends open |
| GripperSpec.TransferWithoutDevice | pydobot_gripper.py:102-114 | with no device, the first `move_block` raises AttributeError and ends the loop with nothing logged |
| GripperSpec.TransferSecondBlockFails | pydobot_gripper.py:107-114 | when the second block's grip call raises but its release returns, the loop goes on: results True, False, True, True and a count of 3 |
| GripperSpec.TransferReleaseFails | pydobot_gripper.py:97-114 | when the second block's grip call and then its release raise, the exception leaves the loop, and blocks three and four are never attempted |
| GripperSpec.CycleNeverReturnsBlocks | pydobot_gripper.py:130-162 | as written, `run_complete_cycle` returns None on every path; after a transfer leg with a success, the only further call is the emergency stop's release |
| GripperSpec.CycleWithoutDevice | pydobot_gripper.py:135-162 | with no device, the cycle returns None and nothing reaches the arm |
| GripperSpec.ShadowedReturnLeg | pydobot_gripper.py:145 | with the script's tables and no call raising, the cycle as written moves all four blocks, makes one more release and returns None; the intended cycle reports 4 transferred and 4 returned |
| GripperSpec.IntendedCycleReturnsIffTransferred | pydobot_gripper.py:130-162 | the corrected cycle: an exception from the transfer leg gives the emergency stop and None; no success gives None with no further call; otherwise the return leg runs, and its exception gives the emergency stop and None, or else the report holds both legs' success counts, each at most its table's size |
| GripperSpec.EmergencyStopReleases | pydobot_gripper.py:164-172 | one release when a device is set and none otherwise; it never raises and leaves the device field alone |
| GripperSpec.EmergencyStopTwice | pydobot_gripper.py:164-172 | two emergency stops make two releases, and the gripper is open once either returned |
| GripperSpec.DisconnectOutcome | pydobot_gripper.py:174-184 | release, then close (no safe-position move); the device is cleared iff both returned; with no device nothing happens |
| GripperSpec.DisconnectReleasesBeforeClose | pydobot_gripper.py:174-184 | whenever the device is cleared, the gripper was open at the close |
| GripperSpec.ConnectOutcome | pydobot_gripper.py:38-47 | the device is set once the open returned; the gripper is opened next; `connect` returns normally iff both calls returned, and then the gripper is open |
| Gripper.Palletizer.constructor | pydobot_gripper.py:5-34 | the tables are the script's block table and return list, and no device is set |
| Gripper.Palletizer.Connect | pydobot_gripper.py:38-47 | new state and re-raised exception are those of `GripperSpec.Connect` |
| Gripper.Palletizer.Recover | pydobot_gripper.py:97-100 | the `except` block: an unguarded release, then False, as `GripperSpec.MoveBlock` gives |
| Gripper.Palletizer.MoveBlock | pydobot_gripper.py:49-100 | result (value or exception) and new state are those of `GripperSpec.MoveBlock` |
| Gripper.Palletizer.MoveAll | pydobot_gripper.py:107-114 | the loop's count, or the exception that ended it, and the new state are those of `GripperSpec.TransferFrom`; a returned count is at most the table size |
| Gripper.Palletizer.TransferBlocks | pydobot_gripper.py:102-114 | the same, over the block table |
| Gripper.Palletizer.ReturnBlocks | pydobot_gripper.py:116-128 | the same, over the return list |
| Gripper.Palletizer.RunCompleteCycle | pydobot_gripper.py:130-162 | report and new state are those of `GripperSpec.CompleteCycle`, the cycle as written |
| Gripper.Palletizer.RunCycleAsIntended | pydobot_gripper.py:130-162 | report and new state are those of `GripperSpec.IntendedCycle`, the corrected cycle |
| Gripper.Palletizer.EmergencyStop | pydobot_gripper.py:164-172 | new state is `GripperSpec.EmergencyStop` |
| Gripper.Palletizer.Disconnect | pydobot_gripper.py:174-184 | new state is `GripperSpec.Disconnect` |

## Left out

- `get_robot_position.py` is not part of this model. It is a separate script that reads the arm's pose.
- The serial protocol, kinematics and motion of the pydobot driver are not modelled. The driver is a log of calls plus an oracle that decides which calls raise.
- A call that raised is taken to have no effect on the suction cup or gripper. The driver's behaviour on a failed call is not visible to the scripts.
- `time.sleep`, `time.time` and the elapsed times in the returned dictionaries are left out. A report holds only the counts.
- `print` output, the block numbers and the operation label passed to `move_block` are left out, because they only feed messages.
- The port string and the `Dobot(port=...)` arguments are left out. Opening the device is the `Open` call.
- `__init__` ends by calling `connect()`. The constructors here stop before that call, and callers make it with `Connect`, which returns the re-raised exception.
- `main`, its menu and its KeyboardInterrupt handling are left out, because they are interactive I/O.
- `Exception` subclasses are not distinguished beyond driver errors, AttributeError and TypeError. The `except Exception` handlers catch all three alike.
- Suction.Palletizer.RunCompleteCycle, RunTransferOnly and RunReturnOnly return only the counts. Their `except` branches cannot be taken, because the suction `move_block` swallows every exception.
- Python truthiness of `self.device` is taken to be "not None".

## Findings

| source | as written | input that shows it | evidently intended | confidence | as-written member | corrected member |
|---|---|---|---|---|---|---|
| pydobot_gripper.py:145 | `__init__` assigns the list `self.return_blocks` (line 25), which hides the method `return_blocks` (line 116). After any successful transfer, `self.return_blocks()` calls a list, raises TypeError, triggers the emergency stop and returns None, so the blocks are never returned. | the script's tables, a connected arm and no failing call: all four blocks are transferred, then one extra release, and the result is None | run the return leg over the return list and report both counts (4 and 4 here) | not executed | GripperSpec.CompleteCycle, GripperSpec.ShadowedReturnLeg | GripperSpec.IntendedCycle, GripperSpec.IntendedCycleReturnsIffTransferred |

# Two-way repeater

A model of the two-way repeater of the RedBits mod: a redstone gate mounted
along a horizontal axis (AXIS is X or Z) that passes a signal through in
whichever direction it arrives first. It reads the input at each end of its
axis, the FRONT face at the positive end and the BACK face at the negative
end. It locks onto the face that powers it (POWER becomes FRONT or BACK) and
emits full strength on that side. When the locked face loses its signal it
goes idle (POWER NONE). Changes happen in block ticks that the repeater
schedules for itself when a neighbour notification shows that its state is
out of date.

The model has these modules:

- `Grid` (`grid.dfy`): the game's axes, directions, block positions and the
  0..15 signal range, which the repeater uses.
- `FacingDirections` (`facing_direction.dfy`): the FacingDirection enum and
  its conversions to and from booleans and axis directions.
- `TwoWayPowers` (`two_way_power.dfy`): the POWER property (NONE, FRONT, BACK).
- `RepeaterLogic` (`repeater_logic.dfy`): the repeater's decisions stated on
  the two face readings alone. `WouldBePowered` says whether arbitration finds
  a signal, `NeedsTick` whether a tick is due, and `TickCommit` what a fired
  tick writes. `Settle` runs a sequence of fired ticks, and the lemmas about
  it cover whole runs.
- `Worlds` (`world.dfy`): a `World` class holding what the repeater's code
  touches. That is the block state at each position, the game's emitted-power
  readings and support checks, the ticks scheduled so far, and the neighbour
  notifications issued so far.
- `AbstractRedstoneGate` (`abstract_redstone_gate.dfy`): the input probe
  `InputPower`, the placement check `CanPlaceAt`, and the update delay
  `UpdateDelayInternal`, which is 2 game ticks; the contracts of
  `TicksToSchedule` and `UpdatePowered` state that delay.
- `TwoWayRepeaterBlock` (`two_way_repeater.dfy`): the block itself.
  `TwoWayPowerUnit` is the datatype `PowerUnit`. The pure operations are
  functions that read the world. `scheduledTick`, `updatePowered`, `onPlaced`
  and `updateTarget` are methods that change the world. `ScheduledTick`,
  `UpdatePowered` and `OnPlaced` are proved against the definitions in
  `RepeaterLogic` (`TickCommit`; `NeedsTick` through `TicksToSchedule`;
  `WouldBePowered`). `UpdateTarget` is proved against the notification list
  `TargetUpdates`, defined beside it in `TwoWayRepeaterBlock`.
- `GateHooks` (`gate_hooks.dfy`): the hooks that AbstractRedstoneGate
  defines on top of the concrete gate, as they run for the two-way repeater.

Notable behaviours of the code, all kept in the model:

- A placed repeater with a signal gets a tick after 1 game tick, not 0.
- An unsupported repeater notifies around all six neighbours, not just the
  four lateral ones.
- In scheduledTick, only an unlocked repeater takes the first branch.
- The re-arbitrating third branch of scheduledTick can never run, so it never
  schedules anything. The model proves this: `RetickBranchIsDead`, and the
  `assert false` in `ScheduledTick`.
- A locked repeater whose face loses its signal goes idle first, even when
  the opposite face is powered. It moves to that face only on a second tick
  (`PivotTakesTwoTicks`).

## Model

| member | source | states |
|---|---|---|
| `FacingDirections.AsString` | src/main/java/net/darktree/redbits/utils/FacingDirection.java:40-42 | the name is "front" exactly for FRONT and "back" exactly for BACK |
| `FacingDirections.ToString` | src/main/java/net/darktree/redbits/utils/FacingDirection.java:16-18 | toString gives the same names as asString: "front" exactly for FRONT, "back" exactly for BACK |
| `FacingDirections.AsBoolean` | src/main/java/net/darktree/redbits/utils/FacingDirection.java:24-26 | true exactly for the side named "front", false exactly for the side named "back" |
| `FacingDirections.AsAxisDirection` | src/main/java/net/darktree/redbits/utils/FacingDirection.java:20-22 | FRONT is exactly the POSITIVE end, BACK exactly the NEGATIVE end |
| `FacingDirections.Other` | src/main/java/net/darktree/redbits/utils/FacingDirection.java:28-30 | the other side is never the same side, and its boolean is the negation |
| `FacingDirections.FromBoolean` | src/main/java/net/darktree/redbits/utils/FacingDirection.java:32-34 | asBoolean of from(b) gives back b |
| `FacingDirections.FromAxisDirection` | src/main/java/net/darktree/redbits/utils/FacingDirection.java:36-38 | asAxisDirection of from(ad) gives back ad |
| `FacingDirections.OtherIsInvolution` | src/main/java/net/darktree/redbits/utils/FacingDirection.java:28-30 | other applied twice is the identity, and other has no fixed point |
| `FacingDirections.BooleanRoundTrip` | src/main/java/net/darktree/redbits/utils/FacingDirection.java:24-34 | from(asBoolean(f)) == f and asBoolean(from(b)) == b |
| `FacingDirections.AxisDirectionRoundTrip` | src/main/java/net/darktree/redbits/utils/FacingDirection.java:20-22 | round trips both ways through AxisDirection, FRONT being POSITIVE and BACK NEGATIVE |
| `FacingDirections.OtherReversesAxisDirection` | src/main/java/net/darktree/redbits/utils/FacingDirection.java:20-30 | the other side points the opposite way along the axis |
| `FacingDirections.NamesIdentifySides` | src/main/java/net/darktree/redbits/utils/FacingDirection.java:7-42 | the names "front" and "back" tell the sides apart, and toString gives the same name as asString |
| `AbstractRedstoneGate.UpdateDelayInternal` | src/main/java/net/darktree/redbits/blocks/AbstractRedstoneGate.java:25-27 | a gate's scheduled update fires 2 game ticks after it is requested |
| `AbstractRedstoneGate.InputPower` | src/main/java/net/darktree/redbits/blocks/AbstractRedstoneGate.java:29-37 | the probe is never below the emitted reading. A saturated reading is returned unchanged, and so is any reading next to a non-wire. Next to a wire it is exactly the larger of the reading and the wire's power, so the short cut changes nothing |
| `AbstractRedstoneGate.CanPlaceAt` | src/main/java/net/darktree/redbits/blocks/AbstractRedstoneGate.java:45-47 | the gate can stand exactly where the cell one below has a top rim |
| `TwoWayRepeaterBlock.DefaultState` | src/main/java/net/darktree/redbits/blocks/TwoWayRepeaterBlock.java:28-31 | the block's default state lies along X and is idle (POWER NONE) |
| `TwoWayRepeaterBlock.ConnectsTo` | src/main/java/net/darktree/redbits/blocks/TwoWayRepeaterBlock.java:37-40 | the repeater connects in exactly the two directions along its axis |
| `TwoWayRepeaterBlock.GetPower` | src/main/java/net/darktree/redbits/blocks/TwoWayRepeaterBlock.java:85-99 | when locked, it returns the locked face with that face's probe. When unlocked, a powered front wins whatever the back reads. It returns (NONE, 0) exactly when both faces read 0, and otherwise a face whose probe is positive |
| `TwoWayRepeaterBlock.LockedArbitrationIgnoresOtherFace` | src/main/java/net/darktree/redbits/blocks/TwoWayRepeaterBlock.java:95-98 | locked arbitration gives the same result in any two worlds that agree on the locked face's probe, whatever the opposite face reads |
| `TwoWayRepeaterBlock.HasPower` | src/main/java/net/darktree/redbits/blocks/TwoWayRepeaterBlock.java:81-83 | true exactly when arbitration from the given lock finds a face with a signal |
| `TwoWayRepeaterBlock.IsTargetNotAligned` | src/main/java/net/darktree/redbits/blocks/TwoWayRepeaterBlock.java:123-130 | true exactly when the repeater is locked and the block on the locked face is a gate that faces some other way than that face; always false when idle |
| `TwoWayRepeaterBlock.GetWeakRedstonePower` | src/main/java/net/darktree/redbits/blocks/TwoWayRepeaterBlock.java:57-63 | the output is always 0 or 15. It is 0 everywhere when idle and 0 in every direction off the axis. It is 15 exactly towards an axis side the locked face is aligned with |
| `TwoWayRepeaterBlock.GetPlacementState` | src/main/java/net/darktree/redbits/blocks/TwoWayRepeaterBlock.java:101-103 | a placed repeater starts idle, along the axis the player faces, connecting both towards and away from the player |
| `TwoWayRepeaterBlock.TicksToSchedule` | src/main/java/net/darktree/redbits/blocks/TwoWayRepeaterBlock.java:65-79 | at most one tick. There is one exactly when a tick is due and none is pending. It has delay 2 and priority EXTREMELY_HIGH for a misaligned target, else VERY_HIGH when locked, else HIGH |
| `TwoWayRepeaterBlock.UpdatePowered` | src/main/java/net/darktree/redbits/blocks/TwoWayRepeaterBlock.java:65-79 | appends exactly the ticks TicksToSchedule gives to the pending list and changes nothing else |
| `TwoWayRepeaterBlock.PriorityTiers` | src/main/java/net/darktree/redbits/blocks/TwoWayRepeaterBlock.java:70-75 | an idle repeater's tick is always HIGH; a locked repeater with an aligned target gets VERY_HIGH |
| `TwoWayRepeaterBlock.NoTickWhileLockHolds` | src/main/java/net/darktree/redbits/blocks/TwoWayRepeaterBlock.java:65-69 | a repeater locked onto a powered face schedules nothing, however often it is notified |
| `TwoWayRepeaterBlock.ScheduledTick` | src/main/java/net/darktree/redbits/blocks/TwoWayRepeaterBlock.java:42-55 | writes at the repeater's position exactly what TickCommit says, with AXIS kept. It leaves the rest of the world, the pending ticks and the notifications unchanged |
| `TwoWayRepeaterBlock.RetickBranchIsDead` | src/main/java/net/darktree/redbits/blocks/TwoWayRepeaterBlock.java:47-54 | the third branch needs an unlocked repeater with a signal whose arbitration returns NONE, which never happens |
| `TwoWayRepeaterBlock.OnPlaced` | src/main/java/net/darktree/redbits/blocks/TwoWayRepeaterBlock.java:105-109 | schedules one tick with delay 1 and the default priority exactly when arbitration from the current lock finds a signal, else nothing |
| `TwoWayRepeaterBlock.PlacedRepeaterTicksIffPowered` | src/main/java/net/darktree/redbits/blocks/TwoWayRepeaterBlock.java:101-109 | for the placement state, onPlaced's test is true exactly when either face has a signal |
| `TwoWayRepeaterBlock.UpdateTarget` | src/main/java/net/darktree/redbits/blocks/TwoWayRepeaterBlock.java:111-121 | issues four notifications in order. For the positive end and then the negative end, it notifies that end cell from the repeater, then that cell's neighbours except the one further out along the axis |
| `TwoWayRepeaterBlock.TargetUpdatesReach` | src/main/java/net/darktree/redbits/blocks/TwoWayRepeaterBlock.java:111-121 | updateTarget's notifications reach both end cells and the repeater itself, but not the cells two steps out along the axis |
| `RepeaterLogic.TickCommit` | src/main/java/net/darktree/redbits/blocks/TwoWayRepeaterBlock.java:42-55 | a tick only locks onto a face that reads above 0. A locked repeater is either left alone or set to NONE, never switched to the other face. It is left alone exactly when locked with a powered face |
| `RepeaterLogic.IdleTieBreakPrefersFront` | src/main/java/net/darktree/redbits/blocks/TwoWayRepeaterBlock.java:87-89 | from idle with the front powered, one tick locks onto FRONT whatever the back reads |
| `RepeaterLogic.LostLockGoesIdle` | src/main/java/net/darktree/redbits/blocks/TwoWayRepeaterBlock.java:49-50 | a locked face that reads 0 makes the tick write NONE, even with the other face powered, and such a state needs a tick |
| `RepeaterLogic.LockHoldsWhilePowered` | src/main/java/net/darktree/redbits/blocks/TwoWayRepeaterBlock.java:47-54 | a locked repeater whose face is powered is left alone by a tick and needs none |
| `RepeaterLogic.TickSettles` | src/main/java/net/darktree/redbits/blocks/TwoWayRepeaterBlock.java:42-79 | after one tick another is due exactly when the old lock lost its signal while the opposite face has one |
| `RepeaterLogic.QuietStateIsFixed` | src/main/java/net/darktree/redbits/blocks/TwoWayRepeaterBlock.java:42-79 | a state that needs no tick is left unchanged by one |
| `RepeaterLogic.PivotTakesTwoTicks` | src/main/java/net/darktree/redbits/blocks/TwoWayRepeaterBlock.java:42-55 | moving from one face to the other takes two ticks, and the first one idles |
| `RepeaterLogic.SettleHoldsLock` | src/main/java/net/darktree/redbits/blocks/TwoWayRepeaterBlock.java:42-55 | a lock survives any run of ticks during which its face stays powered |
| `RepeaterLogic.SettledFaceWasPowered` | src/main/java/net/darktree/redbits/blocks/TwoWayRepeaterBlock.java:42-55 | if a run of ticks ends locked onto a face, that face was powered at the last tick |
| `RepeaterLogic.SettleFromQuietState` | src/main/java/net/darktree/redbits/blocks/TwoWayRepeaterBlock.java:42-55 | under unchanged readings, ticks leave a state that needs no tick as it is |
| `RepeaterLogic.SteadyReadingsSettleInTwoTicks` | src/main/java/net/darktree/redbits/blocks/TwoWayRepeaterBlock.java:42-79 | under unchanged readings the state after two ticks is final, and it needs no further tick (no self-oscillation) |
| `GateHooks.GetStrongRedstonePower` | src/main/java/net/darktree/redbits/blocks/AbstractRedstoneGate.java:50-52 | strong power equals weak power for every state and direction, so it is 0 or 15 |
| `GateHooks.RemovalUpdates` | src/main/java/net/darktree/redbits/blocks/AbstractRedstoneGate.java:84-87 | one notify-all per neighbour, in Direction.values() order |
| `GateHooks.OnBlockAdded` | src/main/java/net/darktree/redbits/blocks/AbstractRedstoneGate.java:64-67 | issues exactly updateTarget's notifications |
| `GateHooks.OnStateReplaced` | src/main/java/net/darktree/redbits/blocks/AbstractRedstoneGate.java:69-75 | issues updateTarget's notifications exactly when the repeater is replaced by another block and not moved. A new state of the repeater itself triggers nothing |
| `GateHooks.NeighborUpdate` | src/main/java/net/darktree/redbits/blocks/AbstractRedstoneGate.java:77-89 | on a supported cell it only schedules what updatePowered does and removes nothing. On an unsupported cell it removes the block, schedules nothing, and notifies around all six neighbours |
| `GateHooks.RemovalReachesAround` | src/main/java/net/darktree/redbits/blocks/AbstractRedstoneGate.java:84-87 | after a removal, every cell next to any of the six neighbours is notified |

## Left out

- RedBits.java is not part of this model. It holds content registration,
  configuration, logging, render layers, colour providers and statistics.
- The game's engine is kept out:
  - the order in which same-time ticks run by priority;
  - the flags passed to setBlockState;
  - the delivery of neighbour notifications;
  - the engine's calls of onStateReplaced and onBlockAdded when a block state
    is written or removed.

  Ticks are appended to a pending list, and notifications to a log. So the
  write in `ScheduledTick` does not itself produce updateTarget's
  notifications here.
- The pending list is not managed as the game manages it. The model does not
  merge duplicate requests, remove a tick when it runs, or discard the ticks
  of a removed cell.
- The game's getEmittedRedstonePower and hasTopRim are kept as world fields
  (`emitted`, `topRim`). Their readings are fixed between operations and do
  not follow block changes.
- isRedstoneGate and a gate's FACING are the block-state variant `Gate`.
- TwoWayPower.java is not part of this model:
  - isAligned is a parameter (`Alignment`);
  - asAxisDirection takes FRONT to POSITIVE and BACK to NEGATIVE, as
    FacingDirection does.
- `RepeaterLogic.Settle` supplies the face readings for each fired tick. It
  does not model when the ticks are scheduled.
- Item drops are not modelled: the dropStacks call in neighborUpdate, which
  drops the repeater's own item when an unsupported repeater is removed, has
  no counterpart in `GateHooks.NeighborUpdate`. Block entities and the
  block-entity clean-up in the inherited onStateReplaced are left out as
  well; the repeater has none.
- Left out because they hold no logic:
  - the outline shape (getOutlineShape, SHAPE);
  - emitsRedstonePower, which is always true;
  - the base class's connectsTo, which the repeater overrides;
  - the unused Random parameter of scheduledTick.
- `ScheduledTick`: the third branch of scheduledTick is proved unreachable
  and is not modelled beyond that proof. It would re-arbitrate and schedule
  a VERY_HIGH tick.

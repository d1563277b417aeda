/**
 * The world the repeater acts on, reduced to what its code touches: the
 * block state stored at each position, the redstone readings and support
 * checks the game computes, the block ticks scheduled so far, and the
 * neighbour notifications issued so far.
 */
module Worlds {
  import opened Grid
  import opened TwoWayPowers

  /** A two-way repeater's block state: AXIS, fixed at placement, and POWER. */
  datatype RepeaterState = RepeaterState(axis: HorizontalAxis, power: TwoWayPower)

  /** The block states the repeater's code tells apart. */
  datatype BlockState =
    | Air
    | Repeater(repeater: RepeaterState)
    | RedstoneWire(wirePower: Strength)
    /** a block that isRedstoneGate accepts, with its FACING */
    | Gate(facing: Direction)
    | OtherBlock

  /** TickPriority: lower-ranked priorities run first among ticks due at the same time. */
  datatype TickPriority = ExtremelyHigh | VeryHigh | High | Normal

  datatype PendingTick = PendingTick(pos: Pos, delay: nat, priority: TickPriority)

  /** A neighbour notification, as issued; the game delivers it later. */
  datatype Notification =
    /** updateNeighbor(target, block, source) */
    | Notify(target: Pos, source: Pos)
    /** updateNeighborsExcept(origin, block, except) */
    | NotifyAllExcept(origin: Pos, except: Direction)
    /** updateNeighborsAlways(origin, block) */
    | NotifyAll(origin: Pos)

  /** The cells whose neighborUpdate a notification runs. */
  function Reached(n: Notification): set<Pos> {
    match n
    case Notify(target, _) => {target}
    case NotifyAllExcept(origin, except) =>
      set d | d in AllDirections && d != except :: Offset(origin, d)
    case NotifyAll(origin) =>
      set d | d in AllDirections :: Offset(origin, d)
  }

  class World {
    /** The block state at each position; a position that is not a key holds air. */
    var blocks: map<Pos, BlockState>
    /** getEmittedRedstonePower(pos, direction), computed by the game. */
    var emitted: (Pos, Direction) -> Strength
    /** hasTopRim(world, pos), computed by the game from the block at pos. */
    var topRim: Pos -> bool
    /** Block ticks scheduled and not yet run, oldest first. */
    var pending: seq<PendingTick>
    /** Neighbour notifications issued, oldest first. */
    var log: seq<Notification>

    constructor (blocks: map<Pos, BlockState>, emitted: (Pos, Direction) -> Strength, topRim: Pos -> bool)
      ensures this.blocks == blocks && this.emitted == emitted && this.topRim == topRim
      ensures pending == [] && log == []
    {
      this.blocks := blocks;
      this.emitted := emitted;
      this.topRim := topRim;
      pending := [];
      log := [];
    }

    /** getBlockState */
    function BlockAt(pos: Pos): (s: BlockState)
      reads this
      ensures pos in blocks ==> s == blocks[pos]
      ensures pos !in blocks ==> s == Air
    {
      if pos in blocks then blocks[pos] else Air
    }

    /** isTicking: a tick is already scheduled for this position. */
    predicate IsTicking(pos: Pos)
      reads this
    {
      exists i :: 0 <= i < |pending| && pending[i].pos == pos
    }

    /** setBlockState */
    method SetBlockState(pos: Pos, s: BlockState)
      modifies this`blocks
      ensures blocks == old(blocks)[pos := s]
    {
      blocks := blocks[pos := s];
    }

    /** removeBlock: the position holds air afterwards. */
    method RemoveBlock(pos: Pos)
      modifies this`blocks
      ensures blocks == old(blocks) - {pos}
      ensures BlockAt(pos) == Air
    {
      blocks := blocks - {pos};
    }

    /** getBlockTickScheduler().schedule */
    method Schedule(pos: Pos, delay: nat, priority: TickPriority)
      modifies this`pending
      ensures pending == old(pending) + [PendingTick(pos, delay, priority)]
    {
      pending := pending + [PendingTick(pos, delay, priority)];
    }

    method UpdateNeighbor(target: Pos, source: Pos)
      modifies this`log
      ensures log == old(log) + [Notify(target, source)]
    {
      log := log + [Notify(target, source)];
    }

    method UpdateNeighborsExcept(origin: Pos, except: Direction)
      modifies this`log
      ensures log == old(log) + [NotifyAllExcept(origin, except)]
    {
      log := log + [NotifyAllExcept(origin, except)];
    }

    method UpdateNeighborsAlways(origin: Pos)
      modifies this`log
      ensures log == old(log) + [NotifyAll(origin)]
    {
      log := log + [NotifyAll(origin)];
    }
  }
}

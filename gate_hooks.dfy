/**
 * The hooks AbstractRedstoneGate defines on top of the concrete gate's
 * updateTarget and updatePowered, as they run for the two-way repeater:
 * strong power, onBlockAdded, onStateReplaced and neighborUpdate.
 */
module GateHooks {
  import opened Grid
  import opened TwoWayPowers
  import opened Worlds
  import opened AbstractRedstoneGate
  import opened TwoWayRepeaterBlock

  /** getStrongRedstonePower: a gate powers the block it points into exactly as strongly as it powers wire. */
  function GetStrongRedstonePower(state: RepeaterState, direction: Direction, isAligned: Alignment): (r: int)
    ensures r == GetWeakRedstonePower(state, direction, isAligned)
    ensures r == 0 || r == 15
  {
    GetWeakRedstonePower(state, direction, isAligned)
  }

  /** The notifications a removed gate issues: every neighbour of every adjacent cell, in Direction.values() order. */
  function RemovalUpdates(pos: Pos): (ns: seq<Notification>)
    ensures |ns| == |AllDirections|
    ensures forall i :: 0 <= i < |ns| ==> ns[i] == NotifyAll(Offset(pos, AllDirections[i]))
  {
    seq(|AllDirections|, i requires 0 <= i < |AllDirections| => NotifyAll(Offset(pos, AllDirections[i])))
  }

  /** onBlockAdded: runs updateTarget. */
  method OnBlockAdded(world: World, pos: Pos, state: RepeaterState)
    modifies world`log
    ensures world.log == old(world.log) + TargetUpdates(pos, state.axis)
  {
    UpdateTarget(world, pos, state);
  }

  /**
   * onStateReplaced: runs updateTarget when the repeater is replaced by a
   * different block without being moved; a new state of the repeater
   * itself, such as a changed POWER, triggers nothing.
   */
  method OnStateReplaced(world: World, pos: Pos, state: RepeaterState, newState: BlockState, moved: bool)
    modifies world`log
    ensures world.log == old(world.log) +
              if !moved && !newState.Repeater? then TargetUpdates(pos, state.axis) else []
  {
    if !moved && !newState.Repeater? {
      UpdateTarget(world, pos, state);
    }
  }

  /**
   * neighborUpdate: a supported repeater re-checks whether it needs a tick
   * and changes nothing else; an unsupported one is removed and notifies
   * around each of its six neighbours.
   */
  method NeighborUpdate(world: World, pos: Pos, state: RepeaterState)
    modifies world`blocks, world`pending, world`log
    ensures old(CanPlaceAt(world, pos)) ==>
              world.blocks == old(world.blocks) && world.log == old(world.log)
              && world.pending == old(world.pending) + old(TicksToSchedule(world, pos, state))
    ensures !old(CanPlaceAt(world, pos)) ==>
              world.blocks == old(world.blocks) - {pos} && world.pending == old(world.pending)
              && world.log == old(world.log) + RemovalUpdates(pos)
  {
    if CanPlaceAt(world, pos) {
      UpdatePowered(world, pos, state);
    } else {
      world.RemoveBlock(pos);
      for i := 0 to |AllDirections|
        invariant world.blocks == old(world.blocks) - {pos}
        invariant world.pending == old(world.pending)
        invariant world.log == old(world.log) + RemovalUpdates(pos)[..i]
      {
        assert RemovalUpdates(pos)[..i + 1] == RemovalUpdates(pos)[..i] + [RemovalUpdates(pos)[i]];
        world.UpdateNeighborsAlways(Offset(pos, AllDirections[i]));
      }
      assert RemovalUpdates(pos)[..|AllDirections|] == RemovalUpdates(pos);
    }
  }

  /** A removed repeater's notifications reach every cell next to each of its six neighbours, itself included. */
  lemma {:induction false} RemovalReachesAround(pos: Pos, d: Direction, e: Direction)
    ensures exists i :: 0 <= i < |RemovalUpdates(pos)| && Offset(Offset(pos, d), e) in Reached(RemovalUpdates(pos)[i])
  {
    var i := match d case Down => 0 case Up => 1 case North => 2 case South => 3 case West => 4 case East => 5;
    assert AllDirections[i] == d;
    assert e in AllDirections;
    assert Offset(Offset(pos, d), e) in Reached(RemovalUpdates(pos)[i]);
  }
}

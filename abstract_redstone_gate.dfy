/**
 * What AbstractRedstoneGate defines for every gate: the update delay, the
 * input probe that reads one neighbour, and the placement check. Its hooks
 * that call back into the concrete gate are in module GateHooks.
 */
module AbstractRedstoneGate {
  import opened Grid
  import opened Worlds

  /** getUpdateDelayInternal: a scheduled update fires two game ticks later, never in the same tick. */
  function UpdateDelayInternal(): (delay: nat)
    ensures delay == 2
  {
    2
  }

  function Max(a: int, b: int): int {
    if a >= b then a else b
  }

  /**
   * getInputPower: the signal that reaches a gate from the block at
   * `blockPos`, looking along `direction`. A saturated emitted reading is
   * returned as it is; otherwise the power stored in a redstone wire there
   * counts too. Because a wire never stores more than 15, the short cut
   * gives the same answer as always taking the larger of the two.
   */
  function InputPower(world: World, blockPos: Pos, direction: Direction): (r: Strength)
    reads world
    ensures r >= world.emitted(blockPos, direction)
    ensures world.emitted(blockPos, direction) >= 15 ==> r == world.emitted(blockPos, direction)
    ensures !world.BlockAt(blockPos).RedstoneWire? ==> r == world.emitted(blockPos, direction)
    ensures world.BlockAt(blockPos).RedstoneWire? ==>
              r == Max(world.emitted(blockPos, direction), world.BlockAt(blockPos).wirePower)
  {
    var i := world.emitted(blockPos, direction);
    if i >= 15 then
      i
    else
      var blockState := world.BlockAt(blockPos);
      Max(i, if blockState.RedstoneWire? then blockState.wirePower else 0)
  }

  /** canPlaceAt: a gate stands only on a block whose top has a rim, the one directly below it. */
  function CanPlaceAt(world: World, pos: Pos): (r: bool)
    reads world
    ensures r == world.topRim(Pos(pos.x, pos.y - 1, pos.z))
  {
    world.topRim(Offset(pos, Down))
  }
}

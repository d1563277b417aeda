/**
 * TwoWayRepeaterBlock: a repeater mounted along a horizontal axis that
 * passes a signal through in whichever direction it first arrives. It reads
 * the inputs at its two ends (the FRONT face at the positive end of the
 * axis, the BACK face at the negative end), locks onto the face that
 * powers it and emits full strength on the matching side until that face
 * loses its signal.
 */
module TwoWayRepeaterBlock {
  import opened Grid
  import opened TwoWayPowers
  import opened RepeaterLogic
  import opened Worlds
  import opened AbstractRedstoneGate

  /** TwoWayPowerUnit: a face together with the strength read on it. */
  datatype PowerUnit = PowerUnit(direction: TwoWayPower, power: Strength)

  /** The block's default state: lying along X, idle. */
  function DefaultState(): (s: RepeaterState)
    ensures s.axis == X && s.power == None
  {
    RepeaterState(X, None)
  }

  /** connectsTo: redstone connects on the two ends of the repeater's axis and nowhere else. */
  function ConnectsTo(state: RepeaterState, direction: Direction): (r: bool)
    ensures r <==> direction == From(state.axis, Positive) || direction == From(state.axis, Negative)
  {
    FromAxisAndSense(direction);
    state.axis == GetAxis(direction)
  }

  /** The direction from the repeater towards a face. */
  function FaceDirection(axis: HorizontalAxis, face: TwoWayPower): (d: Direction)
    requires face != None
    ensures GetAxis(d) == axis && GetAxisDirection(d) == AsAxisDirection(face)
  {
    From(axis, AsAxisDirection(face))
  }

  /** The input power the repeater reads on one face. */
  function FaceInput(world: World, pos: Pos, axis: HorizontalAxis, face: TwoWayPower): Strength
    reads world
    requires face != None
  {
    var direction := FaceDirection(axis, face);
    InputPower(world, Offset(pos, direction), direction)
  }

  /** The readings on both faces. */
  function ReadingsAt(world: World, pos: Pos, axis: HorizontalAxis): Readings
    reads world
  {
    Readings(FaceInput(world, pos, axis, Front), FaceInput(world, pos, axis, Back))
  }

  /**
   * getPower: arbitration. Locked onto a face, the repeater probes that face
   * alone. Unlocked, it probes FRONT and then BACK and reports the first
   * one with a signal, or (NONE, 0) when neither has one.
   */
  function GetPower(world: World, pos: Pos, state: RepeaterState, power: TwoWayPower): (u: PowerUnit)
    reads world
    decreases if power == None then 1 else 0
    ensures power != None ==>
              u.direction == power && u.power == ReadingsAt(world, pos, state.axis).Face(power)
    ensures power == None && ReadingsAt(world, pos, state.axis).front > 0 ==>
              u == PowerUnit(Front, ReadingsAt(world, pos, state.axis).front)
    ensures power == None ==>
              (u.direction == None <==> ReadingsAt(world, pos, state.axis) == Readings(0, 0))
    ensures power == None && u.direction != None ==>
              u.power == ReadingsAt(world, pos, state.axis).Face(u.direction) > 0
    ensures power == None && u.direction == None ==> u.power == 0
  {
    if power == None then
      var a := GetPower(world, pos, state, Front);
      if a.power > 0 then a
      else
        var b := GetPower(world, pos, state, Back);
        if b.power > 0 then b
        else PowerUnit(None, 0)
    else
      var direction := FaceDirection(state.axis, power);
      var blockPos := Offset(pos, direction);
      PowerUnit(power, InputPower(world, blockPos, direction))
  }

  /** hasPower */
  function HasPower(world: World, pos: Pos, state: RepeaterState, power: TwoWayPower): (b: bool)
    reads world
    ensures b == WouldBePowered(power, ReadingsAt(world, pos, state.axis))
  {
    GetPower(world, pos, state, power).power > 0
  }

  /**
   * isTargetNotAligned: the block on the locked face is a gate that does not
   * face the same way as that face. An idle repeater has no target.
   */
  function IsTargetNotAligned(world: World, pos: Pos, state: RepeaterState): (r: bool)
    reads world
    ensures state.power == None ==> !r
    ensures r ==> world.BlockAt(Offset(pos, FaceDirection(state.axis, state.power))).Gate?
    ensures r ==> world.BlockAt(Offset(pos, FaceDirection(state.axis, state.power))).facing
                  != FaceDirection(state.axis, state.power)
    ensures (state.power != None
             && world.BlockAt(Offset(pos, FaceDirection(state.axis, state.power))).Gate?
             && world.BlockAt(Offset(pos, FaceDirection(state.axis, state.power))).facing
                != FaceDirection(state.axis, state.power)) ==> r
  {
    if state.power != None then
      var direction := FaceDirection(state.axis, state.power);
      var blockState := world.BlockAt(Offset(pos, direction));
      blockState.Gate? && blockState.facing != direction
    else
      false
  }

  /**
   * getWeakRedstonePower: all or nothing. Full strength towards a side on
   * the repeater's axis that the locked face is aligned with; nothing
   * while idle and nothing off the axis.
   */
  function GetWeakRedstonePower(state: RepeaterState, direction: Direction, isAligned: Alignment): (r: int)
    ensures r == 0 || r == 15
    ensures state.power == None ==> r == 0
    ensures !ConnectsTo(state, direction) ==> r == 0
    ensures r == 15 <==> state.power != None && ConnectsTo(state, direction)
                         && isAligned(state.power, GetAxisDirection(direction))
  {
    if state.power == None then
      0
    else
      if state.axis == GetAxis(direction) && isAligned(state.power, GetAxisDirection(direction)) then 15 else 0
  }

  /** getPlacementState: the default state turned to the axis the player faces along. */
  function GetPlacementState(playerFacing: Direction): (s: RepeaterState)
    requires GetAxis(playerFacing) != Y
    ensures s.power == None
    ensures s.axis == GetAxis(playerFacing)
    ensures ConnectsTo(s, playerFacing) && ConnectsTo(s, Opposite(playerFacing))
  {
    DefaultState().(axis := GetAxis(playerFacing))
  }

  /**
   * The tick updatePowered schedules: one, with the gate delay, when being
   * locked disagrees with what arbitration finds and no tick is pending
   * yet; a misaligned target ranks it first, a locked repeater next.
   */
  function TicksToSchedule(world: World, pos: Pos, state: RepeaterState): (ticks: seq<PendingTick>)
    reads world
    ensures |ticks| <= 1
    ensures ticks != [] <==> NeedsTick(state.power, ReadingsAt(world, pos, state.axis)) && !world.IsTicking(pos)
    ensures ticks != [] ==> ticks[0].pos == pos && ticks[0].delay == 2
    ensures ticks != [] ==>
              ticks[0].priority == (if IsTargetNotAligned(world, pos, state) then ExtremelyHigh
                                    else if state.power != None then VeryHigh
                                    else High)
  {
    var power := state.power != None;
    if power != HasPower(world, pos, state, state.power) && !world.IsTicking(pos) then
      var priority :=
        if IsTargetNotAligned(world, pos, state) then ExtremelyHigh
        else if power then VeryHigh
        else High;
      [PendingTick(pos, UpdateDelayInternal(), priority)]
    else
      []
  }

  /** The notifications updateTarget issues, for the ends of the repeater's axis. */
  function TargetUpdates(pos: Pos, axis: HorizontalAxis): seq<Notification> {
    var positive := From(axis, Positive);
    var negative := From(axis, Negative);
    [ Notify(Offset(pos, positive), pos), NotifyAllExcept(Offset(pos, positive), positive),
      Notify(Offset(pos, negative), pos), NotifyAllExcept(Offset(pos, negative), negative) ]
  }

  /** The cells the notifications in `ns` reach. */
  function ReachedByAll(ns: seq<Notification>): set<Pos> {
    if ns == [] then {} else Reached(ns[0]) + ReachedByAll(ns[1..])
  }

  /**
   * scheduledTick. An idle repeater locks onto the face arbitration picks;
   * a repeater whose face reads 0 goes idle; a locked repeater whose face
   * still has a signal is left alone. Only POWER is ever written, and no
   * tick is scheduled: the branch that would schedule one cannot be taken.
   */
  method ScheduledTick(world: World, pos: Pos, state: RepeaterState)
    modifies world`blocks
    ensures var c := TickCommit(state.power, old(ReadingsAt(world, pos, state.axis)));
            world.blocks == if c.Set? then old(world.blocks)[pos := Repeater(state.(power := c.power))]
                            else old(world.blocks)
    ensures world.pending == old(world.pending) && world.log == old(world.log)
  {
    var power := state.power;
    var block := GetPower(world, pos, state, power);
    var locked := power != None;

    if !locked && block.power > 0 && block.direction != power {
      world.SetBlockState(pos, Repeater(state.(power := block.direction)));
    } else if block.power == 0 {
      world.SetBlockState(pos, Repeater(state.(power := None)));
    } else if !locked {
      assert false;
    }
  }

  /** The re-arbitrating branch of scheduledTick needs an unlocked repeater with a signal whose arbitration picks no face, which never happens. */
  lemma RetickBranchIsDead(world: World, pos: Pos, state: RepeaterState)
    ensures var block := GetPower(world, pos, state, state.power);
            !(state.power == None && block.power > 0 && block.direction == state.power)
  {
  }

  /** updatePowered: schedules the tick TicksToSchedule describes and nothing else. */
  method UpdatePowered(world: World, pos: Pos, state: RepeaterState)
    modifies world`pending
    ensures world.pending == old(world.pending) + old(TicksToSchedule(world, pos, state))
  {
    var power := state.power != None;
    var block := HasPower(world, pos, state, state.power);

    if power != block && !world.IsTicking(pos) {
      var tickPriority := High;
      if IsTargetNotAligned(world, pos, state) {
        tickPriority := ExtremelyHigh;
      } else if power {
        tickPriority := VeryHigh;
      }
      world.Schedule(pos, UpdateDelayInternal(), tickPriority);
    }
  }

  /** onPlaced: a freshly placed repeater that already has a signal gets a tick one game tick later. */
  method OnPlaced(world: World, pos: Pos, state: RepeaterState)
    modifies world`pending
    ensures world.pending == old(world.pending) +
              if WouldBePowered(state.power, old(ReadingsAt(world, pos, state.axis)))
              then [PendingTick(pos, 1, Normal)] else []
  {
    if HasPower(world, pos, state, state.power) {
      world.Schedule(pos, 1, Normal);
    }
  }

  /**
   * updateTarget: notifies the cell at each end of the axis, and that
   * cell's neighbours except the one beyond it.
   */
  method UpdateTarget(world: World, pos: Pos, state: RepeaterState)
    modifies world`log
    ensures world.log == old(world.log) + TargetUpdates(pos, state.axis)
  {
    var direction := Opposite(From(state.axis, Negative));
    FromAxisAndSense(direction);
    var blockPos := Offset(pos, direction);
    world.UpdateNeighbor(blockPos, pos);
    world.UpdateNeighborsExcept(blockPos, direction);

    direction := Opposite(From(state.axis, Positive));
    FromAxisAndSense(direction);
    blockPos := Offset(pos, direction);
    world.UpdateNeighbor(blockPos, pos);
    world.UpdateNeighborsExcept(blockPos, direction);
  }

  /** The placement state locks onto nothing, so onPlaced schedules a tick exactly when either face has a signal. */
  lemma PlacedRepeaterTicksIffPowered(world: World, pos: Pos, playerFacing: Direction)
    requires GetAxis(playerFacing) != Y
    ensures var state := GetPlacementState(playerFacing);
            var r := ReadingsAt(world, pos, state.axis);
            HasPower(world, pos, state, state.power) <==> r.front > 0 || r.back > 0
  {
  }

  /** Arbitration while locked depends on the locked face's probe alone, never on the opposite face. */
  lemma LockedArbitrationIgnoresOtherFace(w1: World, w2: World, pos: Pos, state: RepeaterState, lock: TwoWayPower)
    requires lock != None
    requires FaceInput(w1, pos, state.axis, lock) == FaceInput(w2, pos, state.axis, lock)
    ensures GetPower(w1, pos, state, lock) == GetPower(w2, pos, state, lock)
    ensures GetPower(w1, pos, state, lock).direction == lock
  {
  }

  /** An idle repeater's priority is never EXTREMELY_HIGH; a locked one with an aligned target gets VERY_HIGH. */
  lemma PriorityTiers(world: World, pos: Pos, state: RepeaterState)
    requires TicksToSchedule(world, pos, state) != []
    ensures state.power == None ==> TicksToSchedule(world, pos, state)[0].priority == High
    ensures state.power != None && !IsTargetNotAligned(world, pos, state) ==>
              TicksToSchedule(world, pos, state)[0].priority == VeryHigh
  {
  }

  /** A repeater locked onto a powered face asks for no tick, however often it is notified. */
  lemma NoTickWhileLockHolds(world: World, pos: Pos, state: RepeaterState)
    requires state.power != None && FaceInput(world, pos, state.axis, state.power) > 0
    ensures TicksToSchedule(world, pos, state) == []
  {
  }

  /**
   * updateTarget reaches the repeater itself and every neighbour of both end
   * cells except the cell one step further out along the axis.
   */
  lemma {:induction false} TargetUpdatesReach(pos: Pos, axis: HorizontalAxis, ad: AxisDirection)
    ensures var d := From(axis, ad);
            var reached := ReachedByAll(TargetUpdates(pos, axis));
            pos in reached && Offset(pos, d) in reached && Offset(Offset(pos, d), d) !in reached
  {
    var p := From(axis, Positive);
    var n := From(axis, Negative);
    var ns := TargetUpdates(pos, axis);
    assert ReachedByAll(ns) == Reached(ns[0]) + Reached(ns[1]) + Reached(ns[2]) + Reached(ns[3]) by {
      assert ns[1..] == [ns[1], ns[2], ns[3]];
      assert ns[1..][1..] == [ns[2], ns[3]];
      assert ns[1..][1..][1..] == [ns[3]];
      assert ns[1..][1..][1..][1..] == [];
      assert ReachedByAll(ns[1..][1..][1..]) == Reached(ns[3]);
      assert ReachedByAll(ns[1..][1..]) == Reached(ns[2]) + Reached(ns[3]);
      assert ReachedByAll(ns[1..]) == Reached(ns[1]) + Reached(ns[2]) + Reached(ns[3]);
    }
    var d := From(axis, ad);
    OffsetFacts(pos, d, d);
    assert Opposite(p) == n by { FromAxisAndSense(Opposite(p)); }
    assert pos in Reached(ns[1]) by {
      OffsetFacts(pos, p, p);
    }
    assert Offset(pos, d) in Reached(if ad == Positive then ns[0] else ns[2]);
    assert Offset(Offset(pos, d), d) !in ReachedByAll(ns) by {
      var far := Offset(Offset(pos, d), d);
      forall e | e in AllDirections && e != p
        ensures Offset(Offset(pos, p), e) != far
      {
        OffsetFacts(Offset(pos, p), e, d);
      }
      forall e | e in AllDirections && e != n
        ensures Offset(Offset(pos, n), e) != far
      {
      }
    }
  }
}

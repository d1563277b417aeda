/**
 * The two-way repeater's decisions, stated on the strengths read on its two
 * faces: whether it ought to be powered, whether a tick is due, and what a
 * fired tick commits to its POWER property. Module TwoWayRepeaterBlock
 * proves that the block's own operations agree with these definitions, and
 * this module proves what they imply over runs of successive ticks.
 */
module RepeaterLogic {
  import opened Grid
  import opened TwoWayPowers

  /** What the repeater reads on its front and back faces at one moment. */
  datatype Readings = Readings(front: Strength, back: Strength) {
    function Face(face: TwoWayPower): Strength
      requires face != None
    {
      if face == Front then front else back
    }
  }

  /** Arbitration from `lock` finds a face with a nonzero signal. */
  predicate WouldBePowered(lock: TwoWayPower, r: Readings) {
    if lock == None then r.front > 0 || r.back > 0 else r.Face(lock) > 0
  }

  /** A tick is due when being locked disagrees with what arbitration finds. */
  predicate NeedsTick(lock: TwoWayPower, r: Readings) {
    (lock != None) != WouldBePowered(lock, r)
  }

  /** What a fired tick does to POWER: leave it, or write a value. */
  datatype Commit = Keep | Set(power: TwoWayPower)

  /**
   * A fired tick: an idle repeater locks onto the front face if it is
   * powered, else onto the back face if that is, else writes NONE again; a
   * locked repeater stays as it is while its face is powered and goes idle
   * once that face reads 0.
   */
  function TickCommit(lock: TwoWayPower, r: Readings): (c: Commit)
    ensures c.Set? && c.power != None ==> r.Face(c.power) > 0
    ensures lock != None ==> c == Keep || c == Set(None)
    ensures c == Keep <==> lock != None && r.Face(lock) > 0
  {
    if lock == None then
      Set(if r.front > 0 then Front else if r.back > 0 then Back else None)
    else if r.Face(lock) == 0 then
      Set(None)
    else
      Keep
  }

  function Apply(lock: TwoWayPower, c: Commit): TwoWayPower {
    if c.Set? then c.power else lock
  }

  /** The POWER after one fired tick per entry of `trace`, each with that entry's readings. */
  function Settle(lock: TwoWayPower, trace: seq<Readings>): TwoWayPower
    decreases |trace|
  {
    if trace == [] then lock
    else Settle(Apply(lock, TickCommit(lock, trace[0])), trace[1..])
  }

  /** `n` successive moments with the same readings. */
  function Steady(r: Readings, n: nat): (trace: seq<Readings>)
    ensures |trace| == n && forall i :: 0 <= i < n ==> trace[i] == r
  {
    seq(n, _ => r)
  }

  /** With both faces powered and no lock, the front face wins. */
  lemma IdleTieBreakPrefersFront(r: Readings)
    requires r.front > 0
    ensures TickCommit(None, r) == Set(Front)
    ensures Settle(None, [r]) == Front
  {
  }

  /** A locked repeater whose own face reads 0 goes idle, even when the other face is powered. */
  lemma LostLockGoesIdle(lock: TwoWayPower, r: Readings)
    requires lock != None && r.Face(lock) == 0
    ensures TickCommit(lock, r) == Set(None)
    ensures NeedsTick(lock, r)
  {
  }

  /** A locked repeater whose face stays powered neither changes nor asks for a tick. */
  lemma LockHoldsWhilePowered(lock: TwoWayPower, r: Readings)
    requires lock != None && r.Face(lock) > 0
    ensures TickCommit(lock, r) == Keep
    ensures !NeedsTick(lock, r)
  {
  }

  /**
   * After one fired tick a repeater needs another exactly when it was locked
   * onto a face that lost its signal while the opposite face has one.
   */
  lemma TickSettles(lock: TwoWayPower, r: Readings)
    ensures NeedsTick(Apply(lock, TickCommit(lock, r)), r)
        <==> lock != None && r.Face(lock) == 0 && r.Face(OppositeFace(lock)) > 0
  {
  }

  /** A state that needs no tick is left as it is by one. */
  lemma QuietStateIsFixed(lock: TwoWayPower, r: Readings)
    requires !NeedsTick(lock, r)
    ensures Apply(lock, TickCommit(lock, r)) == lock
  {
  }

  /** Moving the lock from one face to the other takes two ticks, the first of which idles. */
  lemma PivotTakesTwoTicks(lock: TwoWayPower, r: Readings)
    requires lock != None && r.Face(lock) == 0 && r.Face(OppositeFace(lock)) > 0
    ensures Settle(lock, [r]) == None
    ensures Settle(lock, [r, r]) == OppositeFace(lock)
  {
    assert [r, r][1..] == [r];
    assert [r][1..] == [];
    assert Settle(lock, [r, r]) == Settle(None, [r]) == Settle(OppositeFace(lock), []);
  }

  /** A lock is kept through any run of ticks during which its face stays powered. */
  lemma {:induction false} SettleHoldsLock(lock: TwoWayPower, trace: seq<Readings>)
    requires lock != None
    requires forall i :: 0 <= i < |trace| ==> trace[i].Face(lock) > 0
    ensures Settle(lock, trace) == lock
    decreases |trace|
  {
    if trace != [] {
      LockHoldsWhilePowered(lock, trace[0]);
      assert forall i :: 0 <= i < |trace[1..]| ==> trace[1..][i] == trace[i + 1];
      SettleHoldsLock(lock, trace[1..]);
    }
  }

  /** Whenever a run ends locked onto a face, that face was powered at the last tick. */
  lemma {:induction false} SettledFaceWasPowered(lock: TwoWayPower, trace: seq<Readings>)
    requires trace != []
    ensures Settle(lock, trace) != None ==> trace[|trace| - 1].Face(Settle(lock, trace)) > 0
    decreases |trace|
  {
    var next := Apply(lock, TickCommit(lock, trace[0]));
    if |trace| == 1 {
      assert Settle(lock, trace) == Settle(next, []) == next;
    } else {
      SettledFaceWasPowered(next, trace[1..]);
      assert trace[1..][|trace[1..]| - 1] == trace[|trace| - 1];
    }
  }

  /** Ticks under unchanged readings leave a quiet state where it is. */
  lemma {:induction false} SettleFromQuietState(lock: TwoWayPower, r: Readings, n: nat)
    requires !NeedsTick(lock, r)
    ensures Settle(lock, Steady(r, n)) == lock
    decreases n
  {
    if n > 0 {
      QuietStateIsFixed(lock, r);
      assert Steady(r, n)[1..] == Steady(r, n - 1);
      SettleFromQuietState(lock, r, n - 1);
    }
  }

  /**
   * No self-oscillation: under unchanged readings, two ticks bring the
   * repeater to a state that needs no further tick, and later ticks keep it.
   */
  lemma SteadyReadingsSettleInTwoTicks(lock: TwoWayPower, r: Readings, n: nat)
    requires n >= 2
    ensures Settle(lock, Steady(r, n)) == Settle(lock, [r, r])
    ensures !NeedsTick(Settle(lock, Steady(r, n)), r)
  {
    var p1 := Apply(lock, TickCommit(lock, r));
    var p2 := Apply(p1, TickCommit(p1, r));
    TickSettles(lock, r);
    TickSettles(p1, r);
    assert !NeedsTick(p2, r);
    assert Steady(r, n)[1..] == Steady(r, n - 1);
    assert Steady(r, n - 1)[1..] == Steady(r, n - 2);
    assert [r, r][1..] == [r];
    assert [r][1..] == [];
    assert Settle(lock, [r, r]) == Settle(p1, [r]) == Settle(p2, []) == p2;
    assert Settle(lock, Steady(r, n)) == Settle(p1, Steady(r, n - 1)) == Settle(p2, Steady(r, n - 2));
    SettleFromQuietState(p2, r, n - 2);
  }
}

/** GameSetup: the cue ball on its mark, then fifteen object balls racked in
    a triangle of five rows behind the head-ball position, the eight ball in
    the middle of the third row and every other slot red or blue, at random
    while both groups still have balls to give.

    Positions are points of the rack's lattice rather than float vectors: a
    Point(x, z) lies x ball radii to the right of the head-ball position
    and z rows toward the front, one row being √3 ball radii. In those units
    the two steps of the layout, one diameter along a row and one row back
    with half a diameter to the left, are exact integers. */
module Rack {
  import opened Balls

  datatype Point = Point(x: int, z: int)

  /** Where a ball is put: the cue-ball mark, or a point of the rack. */
  datatype Position = CueBallPosition | RackPoint(p: Point)

  /** One call of Instantiate: a ball of some kind put somewhere. */
  datatype Placement = Placement(kind: BallKind, at: Position)

  function Add(p: Point, q: Point): Point
  {
    Point(p.x + q.x, p.z + q.z)
  }

  /** From one ball of a row to the next: one diameter, two radii, along x. */
  const SlotStep := Point(2, 0)

  /** From the first ball of a row to the first of the next: one radius to
      the left and one row toward the back. */
  const RowStep := Point(-1, -1)

  /** The head-ball position, the apex of the rack. */
  const Head := Point(0, 0)

  /** The point of row i, slot j. */
  function SlotPoint(i: int, j: int): Point
  {
    Point(2 * j - i, -i)
  }

  /** The lattice the loops walk: the first slot is the head-ball position,
      each slot is one slot step past the previous one in its row, and each
      row starts one row step past the previous row's start. */
  lemma SlotPointsAreSteps(i: int, j: int)
    ensures SlotPoint(0, 0) == Head
    ensures SlotPoint(i, j + 1) == Add(SlotPoint(i, j), SlotStep)
    ensures SlotPoint(i + 1, 0) == Add(SlotPoint(i, 0), RowStep)
  {
  }

  predicate IsEightSlot(i: int, j: int)
  {
    i == 2 && j == 1
  }

  /** Where the two nested loops may stand: in row i < 5 before any of its
      i + 1 slots or past the last one, or done. */
  predicate Cursor(i: nat, j: nat)
  {
    (i < 5 && j <= i + 1) || (i == 5 && j == 0)
  }

  /** How many slots come before row i: 1 + 2 + ... + i. */
  function RowStart(i: nat): nat
    requires i <= 5
  {
    if i == 0 then 0 else if i == 1 then 1 else if i == 2 then 3
    else if i == 3 then 6 else if i == 4 then 10 else 15
  }

  /** The row and the slot of the k-th slot visited, counting from 0. */
  function RowOf(k: nat): (i: nat)
    requires k < 15
    ensures i < 5 && RowStart(i) <= k < RowStart(i + 1)
  {
    if k < 1 then 0 else if k < 3 then 1 else if k < 6 then 2 else if k < 10 then 3 else 4
  }

  function SlotOf(k: nat): (j: nat)
    requires k < 15
    ensures j <= RowOf(k)
  {
    k - RowStart(RowOf(k))
  }

  /** Whether the eight-ball slot is still to come. */
  predicate EightAhead(i: nat, j: nat)
  {
    i < 2 || (i == 2 && j <= 1)
  }

  /** How many slots are still to come, and how many of them are not the
      eight ball's. */
  function SlotsLeft(i: nat, j: nat): int
    requires Cursor(i, j)
  {
    15 - RowStart(i) - j
  }

  function GroupSlotsLeft(i: nat, j: nat): int
    requires Cursor(i, j)
  {
    SlotsLeft(i, j) - (if EightAhead(i, j) then 1 else 0)
  }

  /** The random generator, as the result of each successive call of
      Random.Range(0, 2): coin(n) is true when the n-th call returns 0,
      which picks red. */
  type Coin = nat -> bool

  /** One pass of the inner loop's body at row i, slot j, with `drawn`
      calls of the random generator made so far: the kind placed, the two
      counters after it, and the number of calls made after it. */
  datatype Placed = Placed(kind: BallKind, red: int, blue: int, drawn: nat)

  function PlaceAt(i: nat, j: nat, red: int, blue: int, coin: Coin, drawn: nat): (r: Placed)
    ensures r.kind == Eight <==> IsEightSlot(i, j)
    ensures r.kind != Cue
    ensures r.red == red - (if r.kind == Red then 1 else 0)
    ensures r.blue == blue - (if r.kind == Blue then 1 else 0)
    // the generator is called only when both groups still have balls, and
    // then its result alone decides the colour
    ensures r.drawn == if !IsEightSlot(i, j) && red > 0 && blue > 0 then drawn + 1 else drawn
    ensures !IsEightSlot(i, j) && red > 0 && blue > 0 ==> (r.kind == Red <==> coin(drawn))
    // otherwise the group that still has balls is used, blue by default
    ensures !IsEightSlot(i, j) && (red <= 0 || blue <= 0) ==> (r.kind == Red <==> red > 0)
  {
    if IsEightSlot(i, j) then Placed(Eight, red, blue, drawn)
    else if red > 0 && blue > 0 then
      if coin(drawn) then Placed(Red, red - 1, blue, drawn + 1)
      else Placed(Blue, red, blue - 1, drawn + 1)
    else if red > 0 then Placed(Red, red - 1, blue, drawn)
    else Placed(Blue, red, blue - 1, drawn)
  }

  /** How many of the placements are of kind k. */
  function Count(k: BallKind, s: seq<Placement>): nat
  {
    if s == [] then 0 else (if s[0].kind == k then 1 else 0) + Count(k, s[1..])
  }

  /** What the nested loops place from row i, slot j on, the counters they
      leave behind and the number of calls of the generator made by then. */
  datatype Racked = Racked(balls: seq<Placement>, red: int, blue: int, drawn: nat)

  function RackFrom(i: nat, j: nat, red: int, blue: int, coin: Coin, drawn: nat): (r: Racked)
    requires Cursor(i, j)
    // the generator's calls only move forward
    ensures r.drawn >= drawn
    decreases 5 - i, i + 1 - j
  {
    if i == 5 then Racked([], red, blue, drawn)
    else if j == i + 1 then RackFrom(i + 1, 0, red, blue, coin, drawn)
    else
      var s := PlaceAt(i, j, red, blue, coin, drawn);
      var rest := RackFrom(i, j + 1, s.red, s.blue, coin, s.drawn);
      Racked([Placement(s.kind, RackPoint(SlotPoint(i, j)))] + rest.balls, rest.red, rest.blue, rest.drawn)
  }

  /** One slot of a row: the ball placed there, then the rest of the rack. */
  lemma RackFromSlot(i: nat, j: nat, red: int, blue: int, coin: Coin, drawn: nat)
    requires i < 5 && j <= i
    ensures var s := PlaceAt(i, j, red, blue, coin, drawn);
      var rest := RackFrom(i, j + 1, s.red, s.blue, coin, s.drawn);
      RackFrom(i, j, red, blue, coin, drawn) ==
        Racked([Placement(s.kind, RackPoint(SlotPoint(i, j)))] + rest.balls, rest.red, rest.blue, rest.drawn)
  {
  }

  /** The same step seen from the loops: what was placed before, then this
      slot's ball, then the rest. */
  lemma NextSlot(i: nat, j: nat, red: int, blue: int, coin: Coin, drawn: nat, before: seq<Placement>)
    requires i < 5 && j <= i
    ensures var s := PlaceAt(i, j, red, blue, coin, drawn);
      var r := RackFrom(i, j, red, blue, coin, drawn);
      var rest := RackFrom(i, j + 1, s.red, s.blue, coin, s.drawn);
      before + r.balls == (before + [Placement(s.kind, RackPoint(SlotPoint(i, j)))]) + rest.balls &&
      r.red == rest.red && r.blue == rest.blue
  {
    RackFromSlot(i, j, red, blue, coin, drawn);
  }

  /** Each counter ends down by one for every ball of its colour placed. */
  lemma {:induction false} CountersFollowPlacements(i: nat, j: nat, red: int, blue: int, coin: Coin, drawn: nat)
    requires Cursor(i, j)
    ensures var r := RackFrom(i, j, red, blue, coin, drawn);
      r.red == red - Count(Red, r.balls) && r.blue == blue - Count(Blue, r.balls)
    decreases 5 - i, i + 1 - j
  {
    if i == 5 {
    } else if j == i + 1 {
      CountersFollowPlacements(i + 1, 0, red, blue, coin, drawn);
    } else {
      var s := PlaceAt(i, j, red, blue, coin, drawn);
      CountersFollowPlacements(i, j + 1, s.red, s.blue, coin, s.drawn);
      RackFromSlot(i, j, red, blue, coin, drawn);
      var rest := RackFrom(i, j + 1, s.red, s.blue, coin, s.drawn);
      var b := Placement(s.kind, RackPoint(SlotPoint(i, j)));
      CountCons(Red, b, rest.balls);
      CountCons(Blue, b, rest.balls);
    }
  }

  /** The counters never go below zero while the rest of the rack is
      placed from row i, slot j. */
  ghost predicate CountersStayNatural(i: nat, j: nat, red: int, blue: int, coin: Coin, drawn: nat)
    requires Cursor(i, j)
    decreases 5 - i, i + 1 - j
  {
    red >= 0 && blue >= 0 &&
    (i < 5 ==>
      if j == i + 1 then CountersStayNatural(i + 1, 0, red, blue, coin, drawn)
      else
        var s := PlaceAt(i, j, red, blue, coin, drawn);
        CountersStayNatural(i, j + 1, s.red, s.blue, coin, s.drawn))
  }

  /** How the slot bookkeeping moves with the loops: a slot that is not
      the eight ball's uses up one group slot, and the end of a row changes
      nothing. */
  lemma SlotBookkeeping(i: nat, j: nat)
    requires i < 5 && j <= i + 1
    ensures j <= i ==> GroupSlotsLeft(i, j) == GroupSlotsLeft(i, j + 1) + (if IsEightSlot(i, j) then 0 else 1)
    ensures j <= i ==> (EightAhead(i, j) <==> EightAhead(i, j + 1) || IsEightSlot(i, j))
    ensures j <= i ==> !(EightAhead(i, j + 1) && IsEightSlot(i, j))
    ensures j == i + 1 ==> GroupSlotsLeft(i, j) == GroupSlotsLeft(i + 1, 0) && (EightAhead(i, j) <==> EightAhead(i + 1, 0))
    ensures j <= i ==> SlotsLeft(i, j) == SlotsLeft(i, j + 1) + 1
    ensures j == i + 1 ==> RowStart(i) + j == RowStart(i + 1) && SlotsLeft(i, j) == SlotsLeft(i + 1, 0)
  {
  }

  /** Slot j of row i is the slot visited after RowStart(i) + j others. */
  lemma SlotNumbering(i: nat, j: nat)
    requires i < 5 && j <= i
    ensures RowStart(i) + j < 15 && RowOf(RowStart(i) + j) == i && SlotOf(RowStart(i) + j) == j
  {
  }

  lemma CountCons(k: BallKind, b: Placement, s: seq<Placement>)
    ensures Count(k, [b] + s) == (if b.kind == k then 1 else 0) + Count(k, s)
  {
    assert ([b] + s)[1..] == s;
  }

  /** When the two counters add up to the group slots still to come, every
      sequence of draws places exactly the balls that are left: both
      counters end at 0, and the eight ball is placed once if its slot is
      still ahead. */
  lemma {:induction false} RackUsesUpBothGroups(i: nat, j: nat, red: int, blue: int, coin: Coin, drawn: nat)
    requires Cursor(i, j)
    requires red >= 0 && blue >= 0 && red + blue == GroupSlotsLeft(i, j)
    ensures var r := RackFrom(i, j, red, blue, coin, drawn);
      r.red == 0 && r.blue == 0 &&
      Count(Red, r.balls) == red && Count(Blue, r.balls) == blue &&
      Count(Eight, r.balls) == (if EightAhead(i, j) then 1 else 0) &&
      Count(Cue, r.balls) == 0
    decreases 5 - i, i + 1 - j
  {
    if i == 5 {
    } else if j == i + 1 {
      SlotBookkeeping(i, j);
      RackUsesUpBothGroups(i + 1, 0, red, blue, coin, drawn);
    } else {
      var s := PlaceAt(i, j, red, blue, coin, drawn);
      SlotBookkeeping(i, j);
      RackUsesUpBothGroups(i, j + 1, s.red, s.blue, coin, s.drawn);
      RackFromSlot(i, j, red, blue, coin, drawn);
      var rest := RackFrom(i, j + 1, s.red, s.blue, coin, s.drawn);
      var b := Placement(s.kind, RackPoint(SlotPoint(i, j)));
      CountCons(Red, b, rest.balls);
      CountCons(Blue, b, rest.balls);
      CountCons(Eight, b, rest.balls);
      CountCons(Cue, b, rest.balls);
    }
  }

  /** Under the same balance, neither counter goes negative on the way, so
      the final else, which places blue without looking, always finds one. */
  lemma {:induction false} BalancedCountersStayNatural(i: nat, j: nat, red: int, blue: int, coin: Coin, drawn: nat)
    requires Cursor(i, j)
    requires red >= 0 && blue >= 0 && red + blue == GroupSlotsLeft(i, j)
    ensures CountersStayNatural(i, j, red, blue, coin, drawn)
    decreases 5 - i, i + 1 - j
  {
    if i == 5 {
    } else if j == i + 1 {
      SlotBookkeeping(i, j);
      BalancedCountersStayNatural(i + 1, 0, red, blue, coin, drawn);
    } else {
      var s := PlaceAt(i, j, red, blue, coin, drawn);
      SlotBookkeeping(i, j);
      BalancedCountersStayNatural(i, j + 1, s.red, s.blue, coin, s.drawn);
    }
  }

  /** Once one group has run out, the generator no longer matters: the
      rest of the rack is the same whatever it would return. */
  lemma {:induction false} DrawsIgnoredOnceAGroupIsEmpty(i: nat, j: nat, red: int, blue: int,
                                                         coin: Coin, drawn: nat, other: Coin, otherDrawn: nat)
    requires Cursor(i, j)
    requires red <= 0 || blue <= 0
    ensures RackFrom(i, j, red, blue, coin, drawn).balls == RackFrom(i, j, red, blue, other, otherDrawn).balls
    decreases 5 - i, i + 1 - j
  {
    if i == 5 {
    } else if j == i + 1 {
      DrawsIgnoredOnceAGroupIsEmpty(i + 1, 0, red, blue, coin, drawn, other, otherDrawn);
    } else {
      var s := PlaceAt(i, j, red, blue, coin, drawn);
      var t := PlaceAt(i, j, red, blue, other, otherDrawn);
      assert s.kind == t.kind && s.red == t.red && s.blue == t.blue;
      DrawsIgnoredOnceAGroupIsEmpty(i, j + 1, s.red, s.blue, coin, s.drawn, other, t.drawn);
      RackFromSlot(i, j, red, blue, coin, drawn);
      RackFromSlot(i, j, red, blue, other, otherDrawn);
    }
  }

  /** Whether a ball is the one that belongs in the k-th slot visited: at
      that slot's point, and the eight ball exactly when the slot is the
      eight ball's. */
  predicate InSlot(b: Placement, k: nat)
    requires k < 15
  {
    b.at == RackPoint(SlotPoint(RowOf(k), SlotOf(k))) &&
    (b.kind == Eight <==> IsEightSlot(RowOf(k), SlotOf(k)))
  }

  /** The balls, in order, are the ones that belong in the slots visited
      from the k-th on. */
  predicate FollowsLattice(balls: seq<Placement>, k: nat)
  {
    forall n | 0 <= n < |balls| :: k + n < 15 && InSlot(balls[n], k + n)
  }

  lemma LatticeCons(b: Placement, tail: seq<Placement>, k: nat)
    requires k < 15 && InSlot(b, k) && FollowsLattice(tail, k + 1)
    ensures FollowsLattice([b] + tail, k)
  {
    forall n | 0 <= n < |[b] + tail|
      ensures k + n < 15 && InSlot(([b] + tail)[n], k + n)
    {
      if n == 0 {
        assert ([b] + tail)[n] == b;
      } else {
        var m := n - 1;
        assert ([b] + tail)[n] == tail[m];
        assert k + 1 + m < 15 && InSlot(tail[m], k + 1 + m);
        assert k + 1 + m == k + n;
      }
    }
  }

  /** From row i, slot j on, one ball is placed for every slot left, and
      the n-th of them is the one that belongs in the slot visited n steps
      later. */
  lemma {:induction false} RackFollowsTheLattice(i: nat, j: nat, red: int, blue: int, coin: Coin, drawn: nat)
    requires Cursor(i, j)
    ensures var r := RackFrom(i, j, red, blue, coin, drawn);
      |r.balls| == SlotsLeft(i, j) && FollowsLattice(r.balls, RowStart(i) + j)
    decreases 5 - i, i + 1 - j
  {
    if i == 5 {
    } else if j == i + 1 {
      SlotBookkeeping(i, j);
      RackFollowsTheLattice(i + 1, 0, red, blue, coin, drawn);
    } else {
      var s := PlaceAt(i, j, red, blue, coin, drawn);
      SlotBookkeeping(i, j);
      SlotNumbering(i, j);
      RackFollowsTheLattice(i, j + 1, s.red, s.blue, coin, s.drawn);
      RackFromSlot(i, j, red, blue, coin, drawn);
      var rest := RackFrom(i, j + 1, s.red, s.blue, coin, s.drawn);
      LatticeCons(Placement(s.kind, RackPoint(SlotPoint(i, j))), rest.balls, RowStart(i) + j);
    }
  }

  /** The whole rack as GameSetup places it: fifteen balls in the fifteen
      slots, seven red, seven blue and the eight ball in row 2, slot 1,
      and both counters used up. */
  lemma FullRack(coin: Coin)
    ensures var r := RackFrom(0, 0, 7, 7, coin, 0);
      |r.balls| == 15 && r.red == 0 && r.blue == 0 &&
      Count(Red, r.balls) == 7 && Count(Blue, r.balls) == 7 &&
      Count(Eight, r.balls) == 1 && Count(Cue, r.balls) == 0 &&
      r.balls[RowStart(2) + 1] == Placement(Eight, RackPoint(SlotPoint(2, 1))) &&
      FollowsLattice(r.balls, 0)
  {
    var r := RackFrom(0, 0, 7, 7, coin, 0);
    RackUsesUpBothGroups(0, 0, 7, 7, coin, 0);
    RackFollowsTheLattice(0, 0, 7, 7, coin, 0);
    assert RowStart(2) + 1 == 4 && RowOf(4) == 2 && SlotOf(4) == 1;
    assert InSlot(r.balls[4], 0 + 4);
  }

  /** The balance holds when the rack starts, seven and seven for the
      fourteen slots that are not the eight ball's, so neither counter goes
      below zero while GameSetup places the rack. */
  lemma FullRackNeverNegative(coin: Coin)
    ensures CountersStayNatural(0, 0, 7, 7, coin, 0)
  {
    BalancedCountersStayNatural(0, 0, 7, 7, coin, 0);
  }

  /** The engine component: the two counters, and the balls it has
      instantiated so far. */
  class GameSetup {
    var redBallsRemaining: int
    var blueBallsRemaining: int
    var placed: seq<Placement>

    /** The field initialisers followed by Awake, which places all balls. */
    constructor (coin: Coin)
      ensures placed == [Placement(Cue, CueBallPosition)] + RackFrom(0, 0, 7, 7, coin, 0).balls
      ensures redBallsRemaining == 0 && blueBallsRemaining == 0
    {
      redBallsRemaining := 7;
      blueBallsRemaining := 7;
      placed := [];
      new;
      PlaceAllBalls(coin);
      assert redBallsRemaining == 0 && blueBallsRemaining == 0 by {
        RackUsesUpBothGroups(0, 0, 7, 7, coin, 0);
      }
    }

    /** The cue ball first, then the rack. */
    method PlaceAllBalls(coin: Coin)
      modifies this
      ensures var r := RackFrom(0, 0, old(redBallsRemaining), old(blueBallsRemaining), coin, 0);
        placed == old(placed) + [Placement(Cue, CueBallPosition)] + r.balls &&
        redBallsRemaining == r.red && blueBallsRemaining == r.blue
    {
      PlaceCueBall();
      PlaceRandomBalls(coin);
    }

    method PlaceCueBall()
      modifies this
      ensures placed == old(placed) + [Placement(Cue, CueBallPosition)]
      ensures redBallsRemaining == old(redBallsRemaining) && blueBallsRemaining == old(blueBallsRemaining)
    {
      placed := placed + [Placement(Cue, CueBallPosition)];
    }

    method PlaceEightBall(position: Point)
      modifies this
      ensures placed == old(placed) + [Placement(Eight, RackPoint(position))]
      ensures redBallsRemaining == old(redBallsRemaining) && blueBallsRemaining == old(blueBallsRemaining)
    {
      placed := placed + [Placement(Eight, RackPoint(position))];
    }

    method PlaceRedBall(position: Point)
      modifies this
      ensures placed == old(placed) + [Placement(Red, RackPoint(position))]
      ensures redBallsRemaining == old(redBallsRemaining) - 1 && blueBallsRemaining == old(blueBallsRemaining)
    {
      placed := placed + [Placement(Red, RackPoint(position))];
      redBallsRemaining := redBallsRemaining - 1;
    }

    method PlaceBlueBall(position: Point)
      modifies this
      ensures placed == old(placed) + [Placement(Blue, RackPoint(position))]
      ensures redBallsRemaining == old(redBallsRemaining) && blueBallsRemaining == old(blueBallsRemaining) - 1
    {
      placed := placed + [Placement(Blue, RackPoint(position))];
      blueBallsRemaining := blueBallsRemaining - 1;
    }

    /** Five rows, row i holding i + 1 slots; `drawn` counts the calls of
        the random generator. */
    method PlaceRandomBalls(coin: Coin)
      modifies this
      ensures var r := RackFrom(0, 0, old(redBallsRemaining), old(blueBallsRemaining), coin, 0);
        placed == old(placed) + r.balls &&
        redBallsRemaining == r.red && blueBallsRemaining == r.blue
    {
      ghost var whole := RackFrom(0, 0, redBallsRemaining, blueBallsRemaining, coin, 0);
      ghost var target := placed + whole.balls;
      // what the loops have still to place, by the specification
      ghost var rest := whole;
      var numInThisRow := 1;
      var firstInRowPosition := Head;
      var currentPosition := firstInRowPosition;
      var drawn := 0;
      for i := 0 to 5
        invariant numInThisRow == i + 1
        invariant firstInRowPosition == SlotPoint(i, 0) && currentPosition == firstInRowPosition
        invariant rest == RackFrom(i, 0, redBallsRemaining, blueBallsRemaining, coin, drawn)
        invariant placed + rest.balls == target && whole.red == rest.red && whole.blue == rest.blue
      {
        for j := 0 to numInThisRow
          invariant currentPosition == SlotPoint(i, j)
          invariant rest == RackFrom(i, j, redBallsRemaining, blueBallsRemaining, coin, drawn)
          invariant placed + rest.balls == target && whole.red == rest.red && whole.blue == rest.blue
        {
          ghost var step := PlaceAt(i, j, redBallsRemaining, blueBallsRemaining, coin, drawn);
          NextSlot(i, j, redBallsRemaining, blueBallsRemaining, coin, drawn, placed);
          drawn := PlaceInSlot(i, j, currentPosition, coin, drawn);
          rest := RackFrom(i, j + 1, step.red, step.blue, coin, step.drawn);
          SlotPointsAreSteps(i, j);
          currentPosition := Add(currentPosition, SlotStep);
        }
        SlotPointsAreSteps(i, 0);
        firstInRowPosition := Add(firstInRowPosition, RowStep);
        currentPosition := firstInRowPosition;
        numInThisRow := numInThisRow + 1;
      }
    }

    /** The body of the inner loop: the eight ball in its slot; otherwise a
        random colour while both groups have balls, else red while red has
        balls, else blue. Returns the number of calls of the generator made. */
    method PlaceInSlot(i: nat, j: nat, position: Point, coin: Coin, drawn: nat) returns (drawnAfter: nat)
      modifies this
      ensures var s := PlaceAt(i, j, old(redBallsRemaining), old(blueBallsRemaining), coin, drawn);
        placed == old(placed) + [Placement(s.kind, RackPoint(position))] &&
        redBallsRemaining == s.red && blueBallsRemaining == s.blue && drawnAfter == s.drawn
    {
      drawnAfter := drawn;
      if i == 2 && j == 1 {
        PlaceEightBall(position);
      } else if redBallsRemaining > 0 && blueBallsRemaining > 0 {
        var rand := coin(drawnAfter);
        drawnAfter := drawnAfter + 1;
        if rand {
          PlaceRedBall(position);
        } else {
          PlaceBlueBall(position);
        }
      } else if redBallsRemaining > 0 {
        PlaceRedBall(position);
      } else {
        PlaceBlueBall(position);
      }
    }
  }
}

/** The turn and rule state machine of GameManager: who is to play, how many
    balls each player still has to pocket, who may shoot for the eight ball,
    and how a pocketed ball or a table that has come to rest changes that.

    The rules are stated first on a value, MatchState, by one function per
    event; the class GameManager at the end keeps the same state in fields,
    as the engine component does, and each of its methods is proved to move
    its fields exactly as the matching function says. */
module Rules {
  import opened Balls

  datatype Player = Player1 | Player2

  function Opponent(p: Player): (q: Player)
    ensures q != p
  {
    if p == Player1 then Player2 else Player1
  }

  /** The name a player is shown under in messages. */
  function Name(p: Player): string
  {
    if p == Player1 then "Player 1" else "Player 2"
  }

  /** Which of the two cameras is enabled. */
  datatype Camera = CueStickCamera | OverheadCamera

  /** What may enter a pocket's trigger: an object tagged "Ball" (with its
      kind), or anything else. */
  datatype Collider = BallObject(kind: BallKind) | OtherObject

  /** What happens to the object that entered a pocket. */
  datatype Fate = Destroyed | RespawnedAtHead | Ignored

  /** The fields GameManager keeps between frames. `message` is the text of
      the end-of-game message; it is shown, together with the restart button,
      exactly when isGameOver is set. */
  datatype MatchState = MatchState(
    currentPlayer: Player,
    isWinningShotForPlayer1: bool,
    isWinningShotForPlayer2: bool,
    player1BallsRemaining: int,
    player2BallsRemaining: int,
    isWaitingForBallMovementToStop: bool,
    willSwapPlayers: bool,
    ballPocketed: bool,
    isGameOver: bool,
    currentTimer: real,
    currentCamera: Camera,
    message: Announcement)

  /** The state after the field initialisers and Start: Player 1 to play,
      seven balls each, the cue-stick camera on, the timer full. */
  function Initial(shotTimer: real): (m: MatchState)
    ensures m.currentPlayer == Player1 && !m.isGameOver
    ensures Remaining(m, Player1) == 7 && Remaining(m, Player2) == 7
    ensures !Eligible(m, Player1) && !Eligible(m, Player2)
    ensures m.currentCamera == CueStickCamera && m.currentTimer == shotTimer
    ensures !m.isWaitingForBallMovementToStop && !m.willSwapPlayers && !m.ballPocketed
    ensures m.message == Silent
  {
    MatchState(Player1, false, false, 7, 7, false, false, false, false,
               shotTimer, CueStickCamera, Silent)
  }

  /** Whether a player is set up for the winning shot. */
  function Eligible(m: MatchState, p: Player): bool
  {
    if p == Player1 then m.isWinningShotForPlayer1 else m.isWinningShotForPlayer2
  }

  /** How many balls of their group a player still has to pocket. */
  function Remaining(m: MatchState, p: Player): int
  {
    if p == Player1 then m.player1BallsRemaining else m.player2BallsRemaining
  }

  /** The player whose group a ball of this kind belongs to. */
  function Owner(k: BallKind): Player
    requires k == Red || k == Blue
  {
    if k == Red then Player1 else Player2
  }

  /** The end-of-game message: none yet, or one of the three texts that
      Win, ScratchOnWinningShot and EarlyEightBall write. */
  datatype Announcement =
    | Silent
    | HasWon(winner: Player)
    | ScratchedOnFinalShot(loser: Player)
    | EightBallTooEarly(loser: Player)
  {
    function Text(): string
    {
      match this
      case Silent => ""
      case HasWon(p) => Name(p) + " HAS WON!"
      case ScratchedOnFinalShot(p) => Name(p) + " Scratched on their final shot and has lost!"
      case EightBallTooEarly(p) => Name(p) + " Hit in the Eight Ball Too Early and Has Lost!"
    }
  }

  /** Lose and Win: the game is over and the message is shown. */
  function Ended(m: MatchState, message: Announcement): (r: MatchState)
    ensures r.isGameOver && r.message == message
    ensures r.(isGameOver := m.isGameOver, message := m.message) == m
  {
    m.(isGameOver := true, message := message)
  }

  /** The result of CheckBall: the new state, and whether the ball is to be
      destroyed (true) or put back on the table (false). */
  datatype CheckResult = CheckResult(after: MatchState, destroy: bool)

  /** The branch of CheckBall for a ball of either group: one fewer for
      its owner and nothing for the other player, the owner set up for
      the winning shot once they have none left, and a swap when the
      shooter pocketed the opponent's ball. */
  function GroupBallScored(m: MatchState, k: BallKind): (r: MatchState)
    requires k == Red || k == Blue
    ensures r.player1BallsRemaining == m.player1BallsRemaining - (if k == Red then 1 else 0)
    ensures r.player2BallsRemaining == m.player2BallsRemaining - (if k == Blue then 1 else 0)
    ensures Eligible(r, Owner(k)) == (Eligible(m, Owner(k)) || Remaining(r, Owner(k)) <= 0)
    ensures Eligible(r, Opponent(Owner(k))) == Eligible(m, Opponent(Owner(k)))
    ensures r.willSwapPlayers == (m.willSwapPlayers || m.currentPlayer != Owner(k))
    // nothing else changes
    ensures r.(player1BallsRemaining := m.player1BallsRemaining,
               player2BallsRemaining := m.player2BallsRemaining,
               isWinningShotForPlayer1 := m.isWinningShotForPlayer1,
               isWinningShotForPlayer2 := m.isWinningShotForPlayer2,
               willSwapPlayers := m.willSwapPlayers) == m
  {
    if k == Red then
      var left := m.player1BallsRemaining - 1;
      m.(player1BallsRemaining := left,
         isWinningShotForPlayer1 := m.isWinningShotForPlayer1 || left <= 0,
         willSwapPlayers := m.willSwapPlayers || m.currentPlayer != Player1)
    else
      var left := m.player2BallsRemaining - 1;
      m.(player2BallsRemaining := left,
         isWinningShotForPlayer2 := m.isWinningShotForPlayer2 || left <= 0,
         willSwapPlayers := m.willSwapPlayers || m.currentPlayer != Player2)
  }

  /** Scratch, with ScratchOnWinningShot and Lose inlined: whether the
      scratch ended the game, and the state after it. */
  function Scratched(m: MatchState): (r: CheckResult)
    ensures r.destroy == Eligible(m, m.currentPlayer)
    // on the winning shot: lost, with the scratch message
    ensures r.destroy ==> r.after == Ended(m, ScratchedOnFinalShot(m.currentPlayer))
    // otherwise a forced swap and nothing else: the game goes on as it was
    ensures !r.destroy ==> r.after.willSwapPlayers && r.after.(willSwapPlayers := m.willSwapPlayers) == m
  {
    if Eligible(m, m.currentPlayer) then CheckResult(Ended(m, ScratchedOnFinalShot(m.currentPlayer)), true)
    else CheckResult(m.(willSwapPlayers := true), false)
  }

  /** The branch of CheckBall for the eight ball, with Win, EarlyEightBall
      and Lose inlined. */
  function EightBallPocketed(m: MatchState): (r: MatchState)
    ensures r == Ended(m, r.message)
    ensures r.message ==
      if Eligible(m, m.currentPlayer) then HasWon(m.currentPlayer) else EightBallTooEarly(m.currentPlayer)
  {
    Ended(m, if Eligible(m, m.currentPlayer) then HasWon(m.currentPlayer) else EightBallTooEarly(m.currentPlayer))
  }

  /** CheckBall, with Scratch, ScratchOnWinningShot, EarlyEightBall, Win and
      Lose inlined. Nothing here looks at isGameOver: a ball that drops after
      the game has ended is still scored. */
  function Checked(m: MatchState, k: BallKind): (r: CheckResult)
    // whatever the ball, the turn, the flags already set, the camera, the
    // timer and the pocketed flag stay as they were
    ensures r.after.currentPlayer == m.currentPlayer
    ensures Eligible(m, Player1) ==> Eligible(r.after, Player1)
    ensures Eligible(m, Player2) ==> Eligible(r.after, Player2)
    ensures m.isGameOver ==> r.after.isGameOver
    ensures m.willSwapPlayers ==> r.after.willSwapPlayers
    ensures r.after.ballPocketed == m.ballPocketed
    ensures r.after.isWaitingForBallMovementToStop == m.isWaitingForBallMovementToStop
    ensures r.after.currentTimer == m.currentTimer && r.after.currentCamera == m.currentCamera
    // only a ball of a group moves a counter, and only its owner's
    ensures r.after.player1BallsRemaining == m.player1BallsRemaining - (if k == Red then 1 else 0)
    ensures r.after.player2BallsRemaining == m.player2BallsRemaining - (if k == Blue then 1 else 0)
    // scratch: a loss if the shooter was on the winning shot, otherwise a
    // forced swap and the cue ball goes back on the table
    ensures k == Cue ==> r.destroy == Eligible(m, m.currentPlayer)
    ensures k == Cue ==>
      if Eligible(m, m.currentPlayer) then r.after == Ended(m, ScratchedOnFinalShot(m.currentPlayer))
      else r.after == m.(willSwapPlayers := true)
    // eight ball: the game always ends, won exactly when the shooter was
    // on the winning shot
    ensures k == Eight ==> r.destroy && r.after == Ended(m,
      if Eligible(m, m.currentPlayer) then HasWon(m.currentPlayer)
      else EightBallTooEarly(m.currentPlayer))
    // a group ball is always destroyed and scored as above; the game does
    // not end on it
    ensures (k == Red || k == Blue) ==>
      r.destroy && r.after == GroupBallScored(m, k) &&
      r.after.isGameOver == m.isGameOver && r.after.message == m.message
  {
    match k
    case Cue => Scratched(m)
    case Eight => CheckResult(EightBallPocketed(m), true)
    case _ => CheckResult(GroupBallScored(m, k), true)
  }

  datatype PocketResult = PocketResult(after: MatchState, fate: Fate)

  /** OnTriggerEnter: any ball marks the turn as having pocketed something
      and is scored by CheckBall; the cue ball is put back at the head
      position unless the scratch ended the game, every other ball is
      destroyed; anything that is not a ball is ignored. */
  function Pocketed(m: MatchState, other: Collider): (r: PocketResult)
    ensures other == OtherObject ==> r == PocketResult(m, Ignored)
    ensures other.BallObject? ==> r.after.ballPocketed && r.fate != Ignored
    ensures r.fate == RespawnedAtHead <==>
      other == BallObject(Cue) && !Eligible(m, m.currentPlayer)
    ensures other.BallObject? ==> r.after == Checked(m.(ballPocketed := true), other.kind).after
  {
    match other
    case OtherObject => PocketResult(m, Ignored)
    case BallObject(k) =>
      var c := Checked(m.(ballPocketed := true), k);
      PocketResult(c.after, if c.destroy then Destroyed else RespawnedAtHead)
  }

  /** SwitchCameras: toggle the camera; going from the cue-stick view to the
      overhead view starts the wait for the balls to stop. Nothing else
      changes. */
  function CamerasSwitched(m: MatchState): (r: MatchState)
    ensures r.currentCamera != m.currentCamera
    ensures r.isWaitingForBallMovementToStop ==
      (m.isWaitingForBallMovementToStop || m.currentCamera == CueStickCamera)
    ensures r.(currentCamera := m.currentCamera,
               isWaitingForBallMovementToStop := m.isWaitingForBallMovementToStop) == m
  {
    if m.currentCamera == CueStickCamera then
      m.(currentCamera := OverheadCamera, isWaitingForBallMovementToStop := true)
    else
      m.(currentCamera := CueStickCamera)
  }

  /** NextPlayerTurn: the other player is to play, no swap is pending, and
      the cameras are switched. */
  function TurnPassed(m: MatchState): (r: MatchState)
    ensures r.currentPlayer == Opponent(m.currentPlayer) && !r.willSwapPlayers
    ensures r == CamerasSwitched(m.(currentPlayer := r.currentPlayer, willSwapPlayers := false))
  {
    CamerasSwitched(m.(currentPlayer := Opponent(m.currentPlayer), willSwapPlayers := false))
  }

  /** Whether every ball moves slower than the threshold. */
  predicate AtRest(ballSpeeds: seq<real>, movementThreshold: real)
  {
    forall i | 0 <= i < |ballSpeeds| :: ballSpeeds[i] < movementThreshold
  }

  /** Whether a frame of Update resolves the turn: the game waits for the
      balls, is not over, the countdown has run out and every ball is at
      rest. */
  predicate Resolves(m: MatchState, deltaTime: real, allStopped: bool)
  {
    m.isWaitingForBallMovementToStop && !m.isGameOver &&
    m.currentTimer - deltaTime <= 0.0 && allStopped
  }

  /** One frame of Update. */
  function Settled(m: MatchState, deltaTime: real, allStopped: bool, shotTimer: real): (r: MatchState)
    // a finished game, or one that is not waiting, is left exactly as it is
    ensures m.isGameOver || !m.isWaitingForBallMovementToStop ==> r == m
    // while waiting, only the countdown moves until the turn resolves
    ensures m.isWaitingForBallMovementToStop && !m.isGameOver && !Resolves(m, deltaTime, allStopped) ==>
      r == m.(currentTimer := m.currentTimer - deltaTime)
    // resolution: the turn passes exactly when a swap is pending or
    // nothing was pocketed; the turn flags are cleared and the timer refilled
    ensures Resolves(m, deltaTime, allStopped) ==>
      r.currentPlayer ==
        (if m.willSwapPlayers || !m.ballPocketed then Opponent(m.currentPlayer) else m.currentPlayer) &&
      !r.ballPocketed && !r.willSwapPlayers && r.currentTimer == shotTimer &&
      r.currentCamera != m.currentCamera &&
      r.isWaitingForBallMovementToStop == (m.currentCamera == CueStickCamera)
    // the score, the flags and the outcome are never touched
    ensures r.player1BallsRemaining == m.player1BallsRemaining
    ensures r.player2BallsRemaining == m.player2BallsRemaining
    ensures r.isWinningShotForPlayer1 == m.isWinningShotForPlayer1
    ensures r.isWinningShotForPlayer2 == m.isWinningShotForPlayer2
    ensures r.isGameOver == m.isGameOver && r.message == m.message
  {
    if !(m.isWaitingForBallMovementToStop && !m.isGameOver) then m
    else
      var timer := m.currentTimer - deltaTime;
      if timer > 0.0 || !allStopped then m.(currentTimer := timer)
      else
        var stopped := m.(currentTimer := timer, isWaitingForBallMovementToStop := false);
        var next := if stopped.willSwapPlayers || !stopped.ballPocketed then TurnPassed(stopped)
                    else CamerasSwitched(stopped);
        next.(currentTimer := shotTimer, ballPocketed := false)
  }

  /** What reaches GameManager from outside: a pocket trigger, the release
      of a shot (CameraController.Shoot calls SwitchCameras, and only while
      the cue-stick camera is the enabled one), or a frame of Update. */
  datatype Event =
    | Pocket(other: Collider)
    | Fire
    | Frame(deltaTime: real, allStopped: bool)

  function Step(m: MatchState, e: Event, shotTimer: real): (r: MatchState)
    // after a shot is released the overhead camera is on and the game
    // waits for the balls; nothing else changes
    ensures e == Fire ==>
      r.currentCamera == OverheadCamera &&
      r.isWaitingForBallMovementToStop == (m.isWaitingForBallMovementToStop || m.currentCamera == CueStickCamera) &&
      r.(currentCamera := m.currentCamera, isWaitingForBallMovementToStop := m.isWaitingForBallMovementToStop) == m
    // a pocket never changes whose turn it is, the camera or the wait
    ensures e.Pocket? ==>
      r.currentPlayer == m.currentPlayer && r.currentCamera == m.currentCamera &&
      r.isWaitingForBallMovementToStop == m.isWaitingForBallMovementToStop
    // a frame never changes the score or the outcome
    ensures e.Frame? ==>
      r.player1BallsRemaining == m.player1BallsRemaining && r.player2BallsRemaining == m.player2BallsRemaining &&
      r.isGameOver == m.isGameOver && r.message == m.message
  {
    match e
    case Pocket(other) => Pocketed(m, other).after
    case Fire => if m.currentCamera.CueStickCamera? then CamerasSwitched(m) else m
    case Frame(deltaTime, allStopped) => Settled(m, deltaTime, allStopped, shotTimer)
  }

  function Run(m: MatchState, events: seq<Event>, shotTimer: real): MatchState
    decreases |events|
  {
    if events == [] then m else Run(Step(m, events[0], shotTimer), events[1..], shotTimer)
  }

  /** How many balls of kind k the events pocket. */
  function PocketsOf(k: BallKind, events: seq<Event>): nat
    decreases |events|
  {
    if events == [] then 0
    else (if events[0] == Pocket(BallObject(k)) then 1 else 0) + PocketsOf(k, events[1..])
  }

  /** One event moves each counter by one for a ball of its group, and
      by nothing otherwise. */
  lemma StepCountsPocket(m: MatchState, e: Event, shotTimer: real)
    ensures Step(m, e, shotTimer).player1BallsRemaining ==
      m.player1BallsRemaining - (if e == Pocket(BallObject(Red)) then 1 else 0)
    ensures Step(m, e, shotTimer).player2BallsRemaining ==
      m.player2BallsRemaining - (if e == Pocket(BallObject(Blue)) then 1 else 0)
  {
    match e
    case Pocket(other) =>
      if other.BallObject? {
        var c := Checked(m.(ballPocketed := true), other.kind);
        assert Step(m, e, shotTimer) == c.after;
      }
    case Fire =>
    case Frame(deltaTime, allStopped) =>
  }

  /** The winning-shot flags and isGameOver are only ever set, never
      cleared: once true they stay true whatever happens next. */
  lemma {:induction false} SetFlagsStaySet(m: MatchState, events: seq<Event>, shotTimer: real)
    ensures var r := Run(m, events, shotTimer);
      (m.isWinningShotForPlayer1 ==> r.isWinningShotForPlayer1) &&
      (m.isWinningShotForPlayer2 ==> r.isWinningShotForPlayer2) &&
      (m.isGameOver ==> r.isGameOver)
    decreases |events|
  {
    if events != [] {
      SetFlagsStaySet(Step(m, events[0], shotTimer), events[1..], shotTimer);
    }
  }

  /** A player's flag is set exactly when that player has no balls left. */
  predicate EligibleIffCleared(m: MatchState)
  {
    (m.isWinningShotForPlayer1 <==> m.player1BallsRemaining <= 0) &&
    (m.isWinningShotForPlayer2 <==> m.player2BallsRemaining <= 0)
  }

  /** One event keeps "eligible exactly when cleared". */
  lemma StepKeepsEligibility(m: MatchState, e: Event, shotTimer: real)
    requires EligibleIffCleared(m)
    ensures EligibleIffCleared(Step(m, e, shotTimer))
  {
    match e
    case Pocket(other) =>
      if other.BallObject? {
        var c := Checked(m.(ballPocketed := true), other.kind);
        assert Step(m, e, shotTimer) == c.after;
      }
    case Fire =>
    case Frame(deltaTime, allStopped) =>
  }

  /** Every event keeps "eligible exactly when cleared". */
  lemma {:induction false} EligibilityTracksCounters(m: MatchState, events: seq<Event>, shotTimer: real)
    requires EligibleIffCleared(m)
    ensures EligibleIffCleared(Run(m, events, shotTimer))
    decreases |events|
  {
    if events != [] {
      StepKeepsEligibility(m, events[0], shotTimer);
      EligibilityTracksCounters(Step(m, events[0], shotTimer), events[1..], shotTimer);
    }
  }


  /** Each player's counter goes down by one for each ball of their group
      that is pocketed, and by nothing else. */
  lemma {:induction false} CountersCountPockets(m: MatchState, events: seq<Event>, shotTimer: real)
    ensures Run(m, events, shotTimer).player1BallsRemaining == m.player1BallsRemaining - PocketsOf(Red, events)
    ensures Run(m, events, shotTimer).player2BallsRemaining == m.player2BallsRemaining - PocketsOf(Blue, events)
    decreases |events|
  {
    if events != [] {
      StepCountsPocket(m, events[0], shotTimer);
      CountersCountPockets(Step(m, events[0], shotTimer), events[1..], shotTimer);
    }
  }

  /** Once the game is over the turn never passes again: only the settle
      branch of Update changes the current player, and it is gated by
      isGameOver. */
  lemma {:induction false} TurnFrozenAfterGameOver(m: MatchState, events: seq<Event>, shotTimer: real)
    requires m.isGameOver
    ensures Run(m, events, shotTimer).currentPlayer == m.currentPlayer
    ensures Run(m, events, shotTimer).isGameOver
    decreases |events|
  {
    if events != [] {
      TurnFrozenAfterGameOver(Step(m, events[0], shotTimer), events[1..], shotTimer);
    }
  }

  /** While the game waits for the balls, the overhead camera is on. */
  predicate WaitingOnOverhead(m: MatchState)
  {
    m.isWaitingForBallMovementToStop ==> m.currentCamera == OverheadCamera
  }

  /** Every event keeps "waiting only on the overhead camera". */
  lemma {:induction false} WaitingStaysOnOverhead(m: MatchState, events: seq<Event>, shotTimer: real)
    requires WaitingOnOverhead(m)
    ensures WaitingOnOverhead(Run(m, events, shotTimer))
    decreases |events|
  {
    if events != [] {
      WaitingStaysOnOverhead(Step(m, events[0], shotTimer), events[1..], shotTimer);
    }
  }

  /** Both invariants hold at the start of a match, so they hold in every
      state a run of events reaches from there. */
  lemma InvariantsFromTheStart(events: seq<Event>, shotTimer: real)
    ensures EligibleIffCleared(Run(Initial(shotTimer), events, shotTimer))
    ensures WaitingOnOverhead(Run(Initial(shotTimer), events, shotTimer))
  {
    EligibilityTracksCounters(Initial(shotTimer), events, shotTimer);
    WaitingStaysOnOverhead(Initial(shotTimer), events, shotTimer);
  }

  /** In such a state a resolved turn ends the wait and hands the next
      shot to the cue-stick camera. */
  lemma ResolvedTurnStopsWaiting(m: MatchState, deltaTime: real, allStopped: bool, shotTimer: real)
    requires WaitingOnOverhead(m) && Resolves(m, deltaTime, allStopped)
    ensures var r := Settled(m, deltaTime, allStopped, shotTimer);
      !r.isWaitingForBallMovementToStop && r.currentCamera == CueStickCamera &&
      !r.ballPocketed && !r.willSwapPlayers
  {
  }

  /** NextPlayerTurn twice gives the turn back and restores the camera. */
  lemma TurnPassedTwice(m: MatchState)
    ensures TurnPassed(TurnPassed(m)).currentPlayer == m.currentPlayer
    ensures TurnPassed(TurnPassed(m)).currentCamera == m.currentCamera
  {
  }

  /** Running three events is three steps. */
  lemma RunThree(m: MatchState, e0: Event, e1: Event, e2: Event, shotTimer: real)
    ensures Run(m, [e0, e1, e2], shotTimer) ==
      Step(Step(Step(m, e0, shotTimer), e1, shotTimer), e2, shotTimer)
  {
    var m1 := Step(m, e0, shotTimer);
    var m2 := Step(m1, e1, shotTimer);
    assert [e0, e1, e2][1..] == [e1, e2] && [e1, e2][1..] == [e2] && [e2][1..] == [];
    assert Run(m2, [e2], shotTimer) == Step(m2, e2, shotTimer);
    assert Run(m1, [e1, e2], shotTimer) == Run(m2, [e2], shotTimer);
  }

  /** Player 1 pockets a ball of their own group: once the table is at rest,
      Player 1 shoots again. */
  lemma OwnBallKeepsTheTurn(shotTimer: real)
    ensures var m := Run(Initial(shotTimer),
                         [Fire, Pocket(BallObject(Red)), Frame(shotTimer, true)], shotTimer);
      m.currentPlayer == Player1 && m.player1BallsRemaining == 6 && !m.isGameOver &&
      m.currentCamera == CueStickCamera && !m.isWaitingForBallMovementToStop
  {
    RunThree(Initial(shotTimer), Fire, Pocket(BallObject(Red)), Frame(shotTimer, true), shotTimer);
  }

  /** Player 1 pockets a ball of Player 2's group: once the table is at
      rest, Player 2 is to play. */
  lemma OpponentBallPassesTheTurn(shotTimer: real)
    ensures var m := Run(Initial(shotTimer),
                         [Fire, Pocket(BallObject(Blue)), Frame(shotTimer, true)], shotTimer);
      m.currentPlayer == Player2 && m.player2BallsRemaining == 6 && !m.isGameOver
  {
    RunThree(Initial(shotTimer), Fire, Pocket(BallObject(Blue)), Frame(shotTimer, true), shotTimer);
  }

  /** Pocket events are not gated by isGameOver: a shooter on the winning
      shot who scratches has lost, but if the eight ball drops afterwards on
      the same shot the message is overwritten with a win. */
  lemma ScratchThenEightReportsWin(m: MatchState, shotTimer: real)
    requires m.currentPlayer == Player1 && m.isWinningShotForPlayer1
    ensures var r := Run(m, [Pocket(BallObject(Cue)), Pocket(BallObject(Eight))], shotTimer);
      r.isGameOver && r.message == HasWon(Player1)
  {
  }

  /** The engine component: the same state kept in fields. */
  class GameManager {
    var currentPlayer: Player
    var isWinningShotForPlayer1: bool
    var isWinningShotForPlayer2: bool
    var player1BallsRemaining: int
    var player2BallsRemaining: int
    var isWaitingForBallMovementToStop: bool
    var willSwapPlayers: bool
    var ballPocketed: bool
    var isGameOver: bool
    var currentTimer: real
    var currentCamera: Camera
    var message: Announcement

    /** Time to wait after a shot before the balls are checked. */
    const shotTimer: real
    /** A ball slower than this counts as stopped. */
    const movementThreshold: real

    function State(): MatchState
      reads this
    {
      MatchState(currentPlayer, isWinningShotForPlayer1, isWinningShotForPlayer2,
                 player1BallsRemaining, player2BallsRemaining,
                 isWaitingForBallMovementToStop, willSwapPlayers, ballPocketed,
                 isGameOver, currentTimer, currentCamera, message)
    }

    /** The field initialisers followed by Start. */
    constructor (shotTimer: real, movementThreshold: real)
      ensures State() == Initial(shotTimer)
      ensures this.shotTimer == shotTimer && this.movementThreshold == movementThreshold
    {
      this.shotTimer := shotTimer;
      this.movementThreshold := movementThreshold;
      isWinningShotForPlayer1, isWinningShotForPlayer2 := false, false;
      player1BallsRemaining, player2BallsRemaining := 7, 7;
      isWaitingForBallMovementToStop, willSwapPlayers := false, false;
      ballPocketed, isGameOver := false, false;
      message := Silent;
      currentPlayer := Player1;
      currentCamera := CueStickCamera;
      currentTimer := shotTimer;
    }

    /** The scan of Update over every ball: stopped unless some ball moves
      at the threshold speed or faster. */
    method AllStopped(ballSpeeds: seq<real>) returns (allStopped: bool)
      ensures allStopped == AtRest(ballSpeeds, movementThreshold)
    {
      allStopped := true;
      var i := 0;
      while i < |ballSpeeds|
        invariant 0 <= i <= |ballSpeeds|
        invariant forall n | 0 <= n < i :: ballSpeeds[n] < movementThreshold
      {
        if ballSpeeds[i] >= movementThreshold {
          allStopped := false;
          break;
        }
        i := i + 1;
      }
    }

    method Update(deltaTime: real, ballSpeeds: seq<real>)
      modifies this
      ensures State() == Settled(old(State()), deltaTime, AtRest(ballSpeeds, movementThreshold), shotTimer)
    {
      if isWaitingForBallMovementToStop && !isGameOver {
        currentTimer := currentTimer - deltaTime;
        if currentTimer > 0.0 {
          return;
        }
        var allStopped := AllStopped(ballSpeeds);
        if allStopped {
          isWaitingForBallMovementToStop := false;
          if willSwapPlayers || !ballPocketed {
            NextPlayerTurn();
          } else {
            SwitchCameras();
          }
          currentTimer := shotTimer;
          ballPocketed := false;
        }
      }
    }

    method SwitchCameras()
      modifies this
      ensures State() == CamerasSwitched(old(State()))
    {
      if currentCamera == CueStickCamera {
        currentCamera := OverheadCamera;
        isWaitingForBallMovementToStop := true;
      } else {
        currentCamera := CueStickCamera;
      }
    }

    /** Returns whether the scratch ended the game. */
    method Scratch() returns (ended: bool)
      modifies this
      ensures ended == Scratched(old(State())).destroy
      ensures State() == Scratched(old(State())).after
    {
      if currentPlayer == Player1 {
        if isWinningShotForPlayer1 {
          ScratchOnWinningShot(Player1);
          return true;
        }
      } else {
        if isWinningShotForPlayer2 {
          ScratchOnWinningShot(Player2);
          return true;
        }
      }
      willSwapPlayers := true;
      return false;
    }

    method EarlyEightBall()
      modifies this
      ensures State() == Ended(old(State()), EightBallTooEarly(old(currentPlayer)))
    {
      if currentPlayer == Player1 {
        Lose(EightBallTooEarly(Player1));
      } else {
        Lose(EightBallTooEarly(Player2));
      }
    }

    method ScratchOnWinningShot(player: Player)
      modifies this
      ensures State() == Ended(old(State()), ScratchedOnFinalShot(player))
    {
      Lose(ScratchedOnFinalShot(player));
    }

    /** Returns whether the ball is to be destroyed. */
    method CheckBall(ball: BallKind) returns (destroy: bool)
      modifies this
      ensures destroy == Checked(old(State()), ball).destroy
      ensures State() == Checked(old(State()), ball).after
    {
      if ball == Cue {
        var ended := Scratch();
        if ended {
          return true;
        } else {
          return false;
        }
      } else if ball == Eight {
        if currentPlayer == Player1 {
          if isWinningShotForPlayer1 {
            Win(Player1);
            return true;
          }
        } else {
          if isWinningShotForPlayer2 {
            Win(Player2);
            return true;
          }
        }
        EarlyEightBall();
      } else {
        if ball == Red {
          player1BallsRemaining := player1BallsRemaining - 1;
          if player1BallsRemaining <= 0 {
            isWinningShotForPlayer1 := true;
          }
          if currentPlayer != Player1 {
            willSwapPlayers := true;
          }
        } else {
          player2BallsRemaining := player2BallsRemaining - 1;
          if player2BallsRemaining <= 0 {
            isWinningShotForPlayer2 := true;
          }
          if currentPlayer != Player2 {
            willSwapPlayers := true;
          }
        }
      }
      return true;
    }

    method Lose(message: Announcement)
      modifies this
      ensures State() == Ended(old(State()), message)
    {
      isGameOver := true;
      this.message := message;
    }

    method Win(player: Player)
      modifies this
      ensures State() == Ended(old(State()), HasWon(player))
    {
      isGameOver := true;
      message := HasWon(player);
    }

    method NextPlayerTurn()
      modifies this
      ensures State() == TurnPassed(old(State()))
    {
      if currentPlayer == Player1 {
        currentPlayer := Player2;
      } else {
        currentPlayer := Player1;
      }
      willSwapPlayers := false;
      SwitchCameras();
    }

    method OnTriggerEnter(other: Collider) returns (fate: Fate)
      modifies this
      ensures fate == Pocketed(old(State()), other).fate
      ensures State() == Pocketed(old(State()), other).after
    {
      fate := Ignored;
      if other.BallObject? {
        ballPocketed := true;
        var destroy := CheckBall(other.kind);
        if destroy {
          fate := Destroyed;
        } else {
          fate := RespawnedAtHead;
        }
      }
    }
  }
}

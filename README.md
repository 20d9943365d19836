# Eight-ball rules and rack placement, verified

This project models the two pieces of game logic in a Unity eight-ball
pool game and proves properties of them.

- **GameManager** is the turn and rule state machine. Its state is:
  - whose turn it is;
  - how many balls of their group each player still has to pocket;
  - whether each player is set up for the winning shot on the eight ball;
  - whether a swap of players is pending and whether a ball was pocketed this turn;
  - whether the game waits for the balls to stop, and whether the game is over;
  - the countdown timer and the enabled camera.

  That state changes when a ball enters a pocket (`OnTriggerEnter`,
  `CheckBall`, `Scratch` and the rest) and when a frame finds the table at
  rest (`Update`, `NextPlayerTurn`, `SwitchCameras`).
- **GameSetup** racks the balls. It places the cue ball on its mark, then
  walks a triangle of five rows, row `i` holding `i + 1` slots. The eight
  ball goes in the middle of the third row. Every other slot gets red or
  blue: at random while both groups have balls left, otherwise from the
  group that still has some. Each placement counts its group down.

Layout:

- `balls.dfy` (module `Balls`): the kind of a ball (cue, eight, red for
  Player 1, blue for Player 2). It stands for the Ball component, which is
  not part of this model.
- `rules.dfy` (module `Rules`): GameManager.
  - Each event is first a function on a value, `MatchState`: `Checked`,
    `Pocketed`, `CamerasSwitched`, `TurnPassed` and `Settled`.
  - Runs of events are folded by `Run`; the lemmas about whole runs are
    stated over `Run`.
  - The class `GameManager` keeps the same state in fields. Each method's
    `ensures` says its new state is the matching function of its old state.
- `rack.dfy` (module `Rack`): GameSetup.
  - `RackFrom(i, j, red, blue, coin, drawn)` specifies what the nested loops
    place from row `i`, slot `j` on, and the counters they leave.
  - The lemmas about `RackFrom` hold for every outcome of the random
    generator.
  - The class `GameSetup` places the balls with the two nested loops of the
    source. `PlaceRandomBalls` is proved to place exactly `RackFrom(0, 0, ...)`.

Positions in the rack are points of an integer lattice. `Point(x, z)` is
`x` ball radii along the row axis from the head-ball position and `z` rows
toward the front, one row being √3 radii. In these units one slot step is
`(2, 0)`, one row step is `(-1, -1)`, and slot `j` of row `i` is at
`(2j - i, -i)`.

The random generator is a function `coin` from the number of draws made
so far to the draw's outcome. `coin(n)` is true when the n-th call of
`Random.Range(0, 2)` returns 0, which places red.

## Model

| member | source | states |
|---|---|---|
| Rules.Opponent | Assets/Scripts/GameManager.cs:298-304 | the player who takes over is never the one who was playing |
| Rules.Initial | Assets/Scripts/GameManager.cs:89-94 | a match starts with Player 1 to play, seven balls each, nobody eligible for the eight ball, the game not over, the cue-stick camera on, the timer full, no wait, no pending swap, nothing pocketed and no message |
| Rules.Ended | Assets/Scripts/GameManager.cs:277-293 | Lose and Win set the game over and the message, and change nothing else |
| Rules.GroupBallScored | Assets/Scripts/GameManager.cs:247-266 | a red ball takes one from Player 1's counter and a blue one from Player 2's, the other counter is untouched; the owner's flag becomes set once their counter is at most 0, the other flag is untouched; a swap becomes pending exactly when the shooter pocketed the opponent's ball or one was already pending; nothing else changes |
| Rules.Scratched | Assets/Scripts/GameManager.cs:175-193 | Scratch reports that the game ended exactly when the shooter was on the winning shot; then the game is lost with the scratch message, and otherwise a swap is forced and nothing else changes |
| Rules.EightBallPocketed | Assets/Scripts/GameManager.cs:230-243 | pocketing the eight ball always ends the game and changes nothing but the game-over flag and the message: a win for the shooter exactly when they were on the winning shot, the early-eight-ball loss otherwise |
| Rules.Checked | Assets/Scripts/GameManager.cs:221-271 | CheckBall never changes the turn, the timer, the camera, the wait or the pocketed flag, and never clears a set flag, the game-over flag or a pending swap; only a group ball moves a counter, and only its owner's. A cue ball while eligible ends the game with the scratch message and is destroyed; otherwise it forces a swap, changes nothing else and is not destroyed. The eight ball is destroyed and ends the game, a win exactly when the shooter was eligible and the early-eight-ball loss otherwise. A group ball is destroyed, scored as in GroupBallScored, and does not end the game |
| Rules.Pocketed | Assets/Scripts/GameManager.cs:314-326 | anything that is not a ball changes nothing and is ignored; a ball sets the pocketed flag and is scored by CheckBall; the object is put back at the head position exactly when it is the cue ball and the shooter was not eligible, and is destroyed otherwise |
| Rules.CamerasSwitched | Assets/Scripts/GameManager.cs:148-162 | the camera always toggles; the wait for the balls starts exactly when going from the cue-stick camera to the overhead one, and is never cleared here; nothing else changes |
| Rules.TurnPassed | Assets/Scripts/GameManager.cs:298-308 | the opponent is to play and no swap is pending, then the cameras are switched |
| Rules.Settled | Assets/Scripts/GameManager.cs:99-143 | a finished game, or one not waiting, is left exactly as it is. While the turn has not resolved, only the timer counts down. On resolution the turn passes exactly when a swap was pending or nothing was pocketed, the pocketed and swap flags are cleared, the timer is refilled and the camera toggles. The counters, the flags, the game-over flag and the message never change |
| Rules.Step | Assets/Scripts/CameraController.cs:92-126 | one event reaching GameManager (`Run` folds it over a sequence of events): releasing a shot, which calls SwitchCameras only while the cue-stick camera is enabled, leaves the overhead camera on and the game waiting, and changes nothing else; a pocket (OnTriggerEnter) never changes the turn, the camera or the wait; a frame (Update) never changes the counters, the outcome or the message |
| Rules.StepCountsPocket | Assets/Scripts/GameManager.cs:221-271 | one event takes one from Player 1's counter for a red ball and from Player 2's for a blue one, and moves the counters in no other case |
| Rules.StepKeepsEligibility | Assets/Scripts/GameManager.cs:247-266 | one event keeps each player's flag set exactly when their counter is at most 0 |
| Rules.SetFlagsStaySet | Assets/Scripts/GameManager.cs:221-293 | over any run of events, neither winning-shot flag and not the game-over flag is ever cleared once set |
| Rules.EligibilityTracksCounters | Assets/Scripts/GameManager.cs:247-266 | over any run of events, each player's flag stays set exactly when their counter is at most 0 |
| Rules.CountersCountPockets | Assets/Scripts/GameManager.cs:247-266 | over any run of events, Player 1's counter drops by the number of red balls pocketed and Player 2's by the number of blue ones, and by nothing else |
| Rules.TurnFrozenAfterGameOver | Assets/Scripts/GameManager.cs:99-143 | once the game is over, no run of events changes whose turn it is, and the game stays over |
| Rules.WaitingStaysOnOverhead | Assets/Scripts/GameManager.cs:148-162 | over any run of events, the game waits for the balls only while the overhead camera is on |
| Rules.InvariantsFromTheStart | Assets/Scripts/GameManager.cs:24-45 | both invariants above hold in every state reached from the start of a match |
| Rules.ResolvedTurnStopsWaiting | Assets/Scripts/GameManager.cs:124-140 | in such a state, a resolved turn ends the wait, gives the next shot to the cue-stick camera and clears the pocketed and swap flags |
| Rules.TurnPassedTwice | Assets/Scripts/GameManager.cs:298-308 | passing the turn twice gives it back to the same player with the same camera |
| Rules.OwnBallKeepsTheTurn | Assets/Scripts/GameManager.cs:124-140 | from the start: Player 1 shoots, pockets a red ball and the table comes to rest; Player 1 shoots again, with six balls left, on the cue-stick camera |
| Rules.OpponentBallPassesTheTurn | Assets/Scripts/GameManager.cs:124-140 | from the start: Player 1 shoots, pockets a blue ball and the table comes to rest; Player 2 is to play, with six balls left |
| Rules.ScratchThenEightReportsWin | Assets/Scripts/GameManager.cs:314-326 | pocket events are not gated by the game-over flag: after a scratch on the final shot, an eight ball dropping on the same shot replaces the loss message with a win |
| Rules.GameManager.constructor | Assets/Scripts/GameManager.cs:89-94 | the field initialisers and Start leave the initial state |
| Rules.GameManager.AllStopped | Assets/Scripts/GameManager.cs:114-121 | the scan reports all stopped exactly when every ball is slower than the threshold |
| Rules.GameManager.Update | Assets/Scripts/GameManager.cs:99-143 | the fields move as Settled says, with all-stopped being the scan's result |
| Rules.GameManager.SwitchCameras | Assets/Scripts/GameManager.cs:148-162 | the fields move as CamerasSwitched says |
| Rules.GameManager.Scratch | Assets/Scripts/GameManager.cs:175-193 | the result and the fields are as Scratched says |
| Rules.GameManager.EarlyEightBall | Assets/Scripts/GameManager.cs:198-205 | the game ends with the shooter's early-eight-ball message |
| Rules.GameManager.ScratchOnWinningShot | Assets/Scripts/GameManager.cs:211-213 | the game ends with the player's scratch message |
| Rules.GameManager.CheckBall | Assets/Scripts/GameManager.cs:221-271 | the result and the fields are as Checked says |
| Rules.GameManager.Lose | Assets/Scripts/GameManager.cs:277-282 | the game ends with the given message |
| Rules.GameManager.Win | Assets/Scripts/GameManager.cs:288-293 | the game ends with the player's win message |
| Rules.GameManager.NextPlayerTurn | Assets/Scripts/GameManager.cs:298-308 | the fields move as TurnPassed says |
| Rules.GameManager.OnTriggerEnter | Assets/Scripts/GameManager.cs:314-326 | the fate of the object and the fields are as Pocketed says |
| Rack.SlotPointsAreSteps | Assets/Scripts/GameSetup.cs:96-103 | the first slot is the head-ball position; each slot is one diameter past the previous one in its row; each row starts one row step past the previous row's start |
| Rack.PlaceAt | Assets/Scripts/GameSetup.cs:73-94 | the eight ball is placed exactly at row 2, slot 1, and the cue ball never. A colour counts its own counter down by one. The generator is called only when both groups have balls, and then its draw alone decides the colour; otherwise red is placed exactly when red has balls left |
| Rack.SlotBookkeeping | Assets/Scripts/GameSetup.cs:70-72 | each slot visited uses up one slot, and one group slot unless it is the eight ball's; ending a row changes neither count |
| Rack.RackFrom | Assets/Scripts/GameSetup.cs:69-104 | what the nested loops place from row i, slot j on, the counters they leave and the calls of the generator made by then, which only move forward; its properties are the lemmas below |
| Rack.CountersFollowPlacements | Assets/Scripts/GameSetup.cs:57-67 | each counter ends down by the number of balls of its colour placed |
| Rack.RackUsesUpBothGroups | Assets/Scripts/GameSetup.cs:78-94 | whenever the counters add up to the group slots left, every sequence of draws places exactly that many red and blue balls, both counters end at 0, the eight ball is placed once if its slot is ahead and no cue ball is placed |
| Rack.BalancedCountersStayNatural | Assets/Scripts/GameSetup.cs:78-94 | under the same balance, neither counter goes below 0 at any placement, so the last branch, which places blue without checking, always finds a blue ball left |
| Rack.DrawsIgnoredOnceAGroupIsEmpty | Assets/Scripts/GameSetup.cs:78-94 | once a group is empty the rest of the rack is the same whatever the generator returns |
| Rack.RackFollowsTheLattice | Assets/Scripts/GameSetup.cs:70-103 | one ball is placed for each slot left, and each ball is at the point of the slot visited at its turn; it is the eight ball exactly when that slot is the eight ball's |
| Rack.FullRack | Assets/Scripts/GameSetup.cs:51-105 | for every sequence of draws the rack is 15 balls in the 15 slots: 7 red, 7 blue, one eight ball at row 2, slot 1, no cue ball, both counters at 0 |
| Rack.FullRackNeverNegative | Assets/Scripts/GameSetup.cs:78-94 | for every sequence of draws, neither counter goes below 0 while the rack is placed |
| Rack.GameSetup.constructor | Assets/Scripts/GameSetup.cs:21-28 | after Awake the cue ball is placed first, on its mark, then the rack; both counters are 0 |
| Rack.GameSetup.PlaceAllBalls | Assets/Scripts/GameSetup.cs:36-39 | the cue ball, then the rack as RackFrom specifies, appended to what was placed before |
| Rack.GameSetup.PlaceCueBall | Assets/Scripts/GameSetup.cs:41-44 | one cue ball at the cue-ball mark is appended; the counters do not change |
| Rack.GameSetup.PlaceEightBall | Assets/Scripts/GameSetup.cs:46-49 | one eight ball at the given point is appended; the counters do not change |
| Rack.GameSetup.PlaceRedBall | Assets/Scripts/GameSetup.cs:57-61 | one red ball at the given point is appended; the red counter drops by one |
| Rack.GameSetup.PlaceBlueBall | Assets/Scripts/GameSetup.cs:63-67 | one blue ball at the given point is appended; the blue counter drops by one |
| Rack.GameSetup.PlaceRandomBalls | Assets/Scripts/GameSetup.cs:51-105 | the two nested loops append exactly the balls of RackFrom from row 0, slot 0, and leave its counters |
| Rack.GameSetup.PlaceInSlot | Assets/Scripts/GameSetup.cs:73-94 | one pass of the inner loop places the ball PlaceAt chooses, at the current point, and reports the calls of the generator made |

## Left out

- Unity engine calls are not modelled:
  - the text of the ball counters and of the current turn;
  - the visibility of the message and of the restart button, which is always equal to `isGameOver`;
  - `Time.timeScale`, `Debug.Log`, and `ResetCamera` moving the camera;
  - enabling the camera components, `RestartTheLevel` and scene loading.
- `Destroy` and `Instantiate` are not modelled. What is destroyed or put back is returned as a `Fate`. What is instantiated is appended to `placed` as a `Placement`.
- The resetting of the respawned ball's velocities is not modelled.
- The end-of-game message is an `Announcement` value. `Announcement.Text` gives the exact strings, but no lemma is proved about string contents.
- The timer and ball speeds are `real`, not 32-bit floats, so float rounding is not modelled.
  - A ball's speed is given as its velocity's magnitude. `FindGameObjectsWithTag` becomes the sequence of those speeds passed to `Update`.
  - `Time.deltaTime` is a parameter.
- CameraController is not part of this model, beyond one fact used by the `Fire` event of `Step`. Its `Shoot` calls `SwitchCameras` only while its own cue-stick camera is enabled (Assets/Scripts/CameraController.cs:92-126). Charging the shot, aiming and the impulse are float input handling.
- Projection.cs is not part of this model. It is an unfinished scene-cloning stub.
- Ball geometry is not modelled: the radius read from the collider, its scaling by 100, and `Mathf.Sqrt(3)`. Only the lattice of slots is kept.
- The Ball component is not part of this model. A ball is its `BallKind`.
- `Rack.GameSetup.PlaceInSlot` is the body of the inner loop, made a method of its own. `PlaceRedBall` and `PlaceBlueBall`, local functions of `PlaceRandomBalls` in the source, are methods of the class.
- `Rules.Checked` and `Rules.Pocketed` take the kind of the ball. The `Ball` object that the source passes is not modelled.

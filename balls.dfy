/** The role a ball plays on the table, standing in for the Ball component's
    IsCueBall / IsEightBall / IsBallRed queries and its MakeCueBall /
    MakeEightBall / BallSetup(isRed) initialisers. Red balls are Player 1's
    group, blue balls Player 2's. */
module Balls {
  datatype BallKind = Cue | Eight | Red | Blue
}

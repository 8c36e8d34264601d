/**
 * Whole games played through the move handler and the reset from a fresh
 * board: a win on the top row, a win on the middle column, a drawn game,
 * scores that accumulate across a reset, and the evaluator's choice between
 * two lines completed at once.
 *
 * Each game is proved in two parts: a lemma about the boards alone (which
 * moves are legal and what the evaluator says after each), and the game
 * itself, which walks the state through `Click` one move at a time.
 */
module Scenarios {
  import opened Rules
  import opened Session

  /** `p` marks the empty cell `i` of `before`, giving `after`, and the game goes on. */
  ghost predicate QuietMove(before: Board, i: Index, p: Player, after: Board) {
    before[i] == Empty && after == before[i := Marked(p)] && !AnyMatch(after) && !Full(after)
  }

  /** As `QuietMove`, but the board fills up with no line: a draw. */
  ghost predicate DrawingMove(before: Board, i: Index, p: Player, after: Board) {
    before[i] == Empty && after == before[i := Marked(p)] && !AnyMatch(after) && Full(after)
  }

  /** As `QuietMove`, but line number `k` is the first to match, in `p`'s mark. */
  ghost predicate WinningMove(before: Board, i: Index, p: Player, after: Board, k: int) {
    before[i] == Empty && after == before[i := Marked(p)] &&
    IsFirstMatch(after, k) && after[WinPatterns[k][0]] == Marked(p)
  }

  lemma Quiet(s: GameState, i: Index, after: Board)
    requires s.winner == Nobody && QuietMove(s.board, i, s.currentPlayer, after)
    ensures Click(s, i) == s.(board := after, currentPlayer := Other(s.currentPlayer))
  {
  }

  lemma Drawn(s: GameState, i: Index, after: Board)
    requires s.winner == Nobody && DrawingMove(s.board, i, s.currentPlayer, after)
    ensures Click(s, i) == s.(board := after, winner := Draw)
  {
  }

  lemma Wins(s: GameState, i: Index, after: Board, k: int)
    requires s.winner == Nobody && WinningMove(s.board, i, s.currentPlayer, after, k)
    ensures Click(s, i) == s.(board := after, winner := Won(s.currentPlayer),
                             winningCells := WinPatterns[k], scores := s.scores.Add(s.currentPlayer))
  {
  }

  /** Every game below opens with X in the top-left corner. */
  const A1: Board := [Marked(X), Empty, Empty, Empty, Empty, Empty, Empty, Empty, Empty]

  // ---------------------------------------------------------------------
  // X: 0, O: 3, X: 1, O: 4, X: 2 -- X completes the top row.

  const T2: Board := [Marked(X), Empty, Empty, Marked(O), Empty, Empty, Empty, Empty, Empty]
  const T3: Board := [Marked(X), Marked(X), Empty, Marked(O), Empty, Empty, Empty, Empty, Empty]
  const T4: Board := [Marked(X), Marked(X), Empty, Marked(O), Marked(O), Empty, Empty, Empty, Empty]
  const T5: Board := [Marked(X), Marked(X), Marked(X), Marked(O), Marked(O), Empty, Empty, Empty, Empty]

  lemma TopRowBoards()
    ensures QuietMove(EmptyBoard, 0, X, A1) && QuietMove(A1, 3, O, T2)
    ensures QuietMove(T2, 1, X, T3) && QuietMove(T3, 4, O, T4)
    ensures WinningMove(T4, 2, X, T5, 0)
  {
    assert A1[8] == Empty && T2[8] == Empty && T3[8] == Empty && T4[8] == Empty;
    forall k | 0 <= k < |WinPatterns|
      ensures !Matches(A1, WinPatterns[k]) && !Matches(T2, WinPatterns[k])
      ensures !Matches(T3, WinPatterns[k]) && !Matches(T4, WinPatterns[k])
    {
    }
  }

  lemma TopRowWin(scores: Scores)
    ensures
      var s1 := Click(Initial(scores), 0);
      var s2 := Click(s1, 3);
      var s3 := Click(s2, 1);
      var s4 := Click(s3, 4);
      var s5 := Click(s4, 2);
      s5.winner == Won(X) && s5.winningCells == [0, 1, 2] &&
      s5.scores.Of(X) == scores.Of(X) + 1 && s5.scores.Of(O) == scores.Of(O)
  {
    TopRowBoards();
    var s0 := Initial(scores);
    Quiet(s0, 0, A1);
    var s1 := Click(s0, 0);
    Quiet(s1, 3, T2);
    var s2 := Click(s1, 3);
    Quiet(s2, 1, T3);
    var s3 := Click(s2, 1);
    Quiet(s3, 4, T4);
    var s4 := Click(s3, 4);
    Wins(s4, 2, T5, 0);
  }

  // ---------------------------------------------------------------------
  // Two games that share their first five moves X: 0, O: 1, X: 2, O: 4, X: 3.
  // Then O: 7 completes the middle column; or O: 5, X: 7, O: 6, X: 8 fills
  // the board with no line.

  const D2: Board := [Marked(X), Marked(O), Empty, Empty, Empty, Empty, Empty, Empty, Empty]
  const D3: Board := [Marked(X), Marked(O), Marked(X), Empty, Empty, Empty, Empty, Empty, Empty]
  const D4: Board := [Marked(X), Marked(O), Marked(X), Empty, Marked(O), Empty, Empty, Empty, Empty]
  const D5: Board := [Marked(X), Marked(O), Marked(X), Marked(X), Marked(O), Empty, Empty, Empty, Empty]
  const C6: Board := [Marked(X), Marked(O), Marked(X), Marked(X), Marked(O), Empty, Empty, Marked(O), Empty]
  const D6: Board := [Marked(X), Marked(O), Marked(X), Marked(X), Marked(O), Marked(O), Empty, Empty, Empty]
  const D7: Board := [Marked(X), Marked(O), Marked(X), Marked(X), Marked(O), Marked(O), Empty, Marked(X), Empty]
  const D8: Board := [Marked(X), Marked(O), Marked(X), Marked(X), Marked(O), Marked(O), Marked(O), Marked(X), Empty]
  const D9: Board := [Marked(X), Marked(O), Marked(X), Marked(X), Marked(O), Marked(O), Marked(O), Marked(X), Marked(X)]

  lemma OpeningBoards()
    ensures QuietMove(EmptyBoard, 0, X, A1) && QuietMove(A1, 1, O, D2)
    ensures QuietMove(D2, 2, X, D3) && QuietMove(D3, 4, O, D4)
    ensures QuietMove(D4, 3, X, D5)
  {
    assert A1[8] == Empty && D2[8] == Empty && D3[8] == Empty && D4[8] == Empty && D5[8] == Empty;
    forall k | 0 <= k < |WinPatterns|
      ensures !Matches(A1, WinPatterns[k]) && !Matches(D2, WinPatterns[k])
      ensures !Matches(D3, WinPatterns[k]) && !Matches(D4, WinPatterns[k])
      ensures !Matches(D5, WinPatterns[k])
    {
    }
  }

  lemma MiddleColumnBoards()
    ensures WinningMove(D5, 7, O, C6, 4)
  {
  }

  lemma DrawBoards()
    ensures QuietMove(D5, 5, O, D6) && QuietMove(D6, 7, X, D7) && QuietMove(D7, 6, O, D8)
    ensures DrawingMove(D8, 8, X, D9)
  {
    assert D6[8] == Empty && D7[8] == Empty && D8[8] == Empty;
    forall k | 0 <= k < |WinPatterns|
      ensures !Matches(D6, WinPatterns[k]) && !Matches(D7, WinPatterns[k])
      ensures !Matches(D8, WinPatterns[k]) && !Matches(D9, WinPatterns[k])
    {
    }
  }

  /** The state after the shared opening: O to move, nothing decided. */
  lemma Opening(scores: Scores)
    ensures
      var s5 := Click(Click(Click(Click(Click(Initial(scores), 0), 1), 2), 4), 3);
      s5 == GameState(D5, O, Nobody, [], scores)
  {
    OpeningBoards();
    var s0 := Initial(scores);
    Quiet(s0, 0, A1);
    var s1 := Click(s0, 0);
    Quiet(s1, 1, D2);
    var s2 := Click(s1, 1);
    Quiet(s2, 2, D3);
    var s3 := Click(s2, 2);
    Quiet(s3, 4, D4);
    var s4 := Click(s3, 4);
    Quiet(s4, 3, D5);
  }

  lemma MiddleColumnWin(scores: Scores)
    ensures
      var s5 := Click(Click(Click(Click(Click(Initial(scores), 0), 1), 2), 4), 3);
      var s6 := Click(s5, 7);
      s6.winner == Won(O) && s6.winningCells == [1, 4, 7] && s6.currentPlayer == O &&
      s6.scores.Of(O) == scores.Of(O) + 1 && s6.scores.Of(X) == scores.Of(X)
  {
    Opening(scores);
    MiddleColumnBoards();
    Wins(GameState(D5, O, Nobody, [], scores), 7, C6, 4);
  }

  lemma DrawnGame(scores: Scores)
    ensures
      var s5 := Click(Click(Click(Click(Click(Initial(scores), 0), 1), 2), 4), 3);
      var s9 := Click(Click(Click(Click(s5, 5), 7), 6), 8);
      s9.winner == Draw && s9.winningCells == [] && s9.scores == scores &&
      Full(s9.board)
  {
    Opening(scores);
    DrawBoards();
    var s5 := GameState(D5, O, Nobody, [], scores);
    Quiet(s5, 5, D6);
    var s6 := Click(s5, 5);
    Quiet(s6, 7, D7);
    var s7 := Click(s6, 7);
    Quiet(s7, 6, D8);
    var s8 := Click(s7, 6);
    Drawn(s8, 8, D9);
  }

  // ---------------------------------------------------------------------
  // X: 0, O: 1, X: 3, O: 4, X: 2, O: 6, X: 5, O: 7, X: 8 is not a draw:
  // O's eighth move completes the middle column and X's last click is ignored.

  const M3: Board := [Marked(X), Marked(O), Empty, Marked(X), Empty, Empty, Empty, Empty, Empty]
  const M4: Board := [Marked(X), Marked(O), Empty, Marked(X), Marked(O), Empty, Empty, Empty, Empty]
  const M6: Board := [Marked(X), Marked(O), Marked(X), Marked(X), Marked(O), Empty, Marked(O), Empty, Empty]
  const M7: Board := [Marked(X), Marked(O), Marked(X), Marked(X), Marked(O), Marked(X), Marked(O), Empty, Empty]
  const M8: Board := [Marked(X), Marked(O), Marked(X), Marked(X), Marked(O), Marked(X), Marked(O), Marked(O), Empty]

  lemma InterleavedBoards()
    ensures QuietMove(D2, 3, X, M3) && QuietMove(M3, 4, O, M4) && QuietMove(M4, 2, X, D5)
    ensures QuietMove(D5, 6, O, M6) && QuietMove(M6, 5, X, M7)
    ensures WinningMove(M7, 7, O, M8, 4)
  {
    assert M3[8] == Empty && M4[8] == Empty && D5[8] == Empty && M6[8] == Empty && M7[8] == Empty;
    forall k | 0 <= k < |WinPatterns|
      ensures !Matches(M3, WinPatterns[k]) && !Matches(M4, WinPatterns[k])
      ensures !Matches(D5, WinPatterns[k]) && !Matches(M6, WinPatterns[k])
      ensures !Matches(M7, WinPatterns[k])
    {
    }
  }

  lemma InterleavedGameIsWonByO(scores: Scores)
    ensures
      var s4 := Click(Click(Click(Click(Initial(scores), 0), 1), 3), 4);
      var s8 := Click(Click(Click(Click(s4, 2), 6), 5), 7);
      var s9 := Click(s8, 8);
      s8.winner == Won(O) && s8.winningCells == [1, 4, 7] &&
      s8.scores.Of(O) == scores.Of(O) + 1 && s8.scores.Of(X) == scores.Of(X) &&
      s9 == s8 && s9.board[8] == Empty
  {
    OpeningBoards();
    InterleavedBoards();
    var s0 := Initial(scores);
    Quiet(s0, 0, A1);
    var s1 := Click(s0, 0);
    Quiet(s1, 1, D2);
    var s2 := Click(s1, 1);
    Quiet(s2, 3, M3);
    var s3 := Click(s2, 3);
    Quiet(s3, 4, M4);
    var s4 := Click(s3, 4);
    Quiet(s4, 2, D5);
    var s5 := Click(s4, 2);
    Quiet(s5, 6, M6);
    var s6 := Click(s5, 6);
    Quiet(s6, 5, M7);
    var s7 := Click(s6, 5);
    Wins(s7, 7, M8, 4);
  }

  // ---------------------------------------------------------------------

  /** X wins a game, the board is reset, O wins the next: both tallies rise by one. */
  lemma ScoresAccumulateAcrossReset(scores: Scores)
    ensures
      var first := Click(Click(Click(Click(Click(Initial(scores), 0), 3), 1), 4), 2);
      var next := Initial(first.scores);
      var second := Click(Click(Click(Click(Click(Click(next, 0), 1), 2), 4), 3), 7);
      second.scores.Of(X) == scores.Of(X) + 1 && second.scores.Of(O) == scores.Of(O) + 1
  {
    TopRowWin(scores);
    var first := Click(Click(Click(Click(Click(Initial(scores), 0), 3), 1), 4), 2);
    MiddleColumnWin(first.scores);
  }

  /**
   * A full board on which the top row and the left column both hold X: the
   * evaluator reports the row, the earlier line of the table, and reports a
   * win rather than a draw.
   */
  lemma FirstOfTwoLines()
    ensures
      var b: Board := [Marked(X), Marked(X), Marked(X), Marked(X), Marked(O), Marked(O), Marked(X), Marked(O), Marked(O)];
      Full(b) && Matches(b, [0, 1, 2]) && Matches(b, [0, 3, 6]) &&
      Evaluate(b) == Evaluation(Won(X), [0, 1, 2])
  {
  }
}

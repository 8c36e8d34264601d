/**
 * The game component's state (`board`, `currentPlayer`, `winner`,
 * `winningCells`, `scores`), the move handler and the reset in app.tsx.
 *
 * `Click` and `Initial` say what one move and one reset do to a snapshot of
 * that state; class `App` holds the state in fields and its methods update
 * them step by step as the source's handlers do, proved equal to those
 * functions.
 */
module Session {
  import opened Rules

  /** Win counts, one per player (the record `{ X, O }`). */
  datatype Scores = Scores(x: nat, o: nat) {
    function Of(p: Player): nat {
      if p == X then x else o
    }

    /** `{ ...prev, [p]: prev[p] + 1 }`: one more win for `p`, none for the other. */
    function Add(p: Player): (r: Scores)
      ensures r.Of(p) == Of(p) + 1 && r.Of(Other(p)) == Of(Other(p))
    {
      if p == X then this.(x := x + 1) else this.(o := o + 1)
    }
  }

  /** A snapshot of the component's five pieces of state. */
  datatype GameState = GameState(
    board: Board,
    currentPlayer: Player,
    winner: Winner,
    winningCells: seq<Index>,
    scores: Scores)

  /** The state at the start of a game: empty board, X to move, given scores. */
  function Initial(scores: Scores): (s: GameState)
    ensures forall i :: 0 <= i < 9 ==> s.board[i] == Empty
    ensures s.currentPlayer == X && s.winner == Nobody && s.winningCells == []
    ensures s.scores == scores
  {
    GameState(EmptyBoard, X, Nobody, [], scores)
  }

  /** The move handler accepts a click only on an empty cell of a game in progress. */
  predicate Accepts(s: GameState, index: int)
    requires 0 <= index < 9
  {
    s.board[index] == Empty && s.winner == Nobody
  }

  /** What `handleClick(index)` does to the state. */
  function Click(s: GameState, index: int): (t: GameState)
    requires 0 <= index < 9
    // the guard: an occupied cell or a finished game changes nothing
    ensures !Accepts(s, index) ==> t == s
    // an accepted move writes the mover's mark into that cell and no other
    ensures Accepts(s, index) ==>
      t.board[index] == Marked(s.currentPlayer) &&
      forall j :: 0 <= j < 9 && j != index ==> t.board[j] == s.board[j]
    // a line completed: that player wins, scores one point, the first
    // matching line is highlighted and the turn does not pass
    ensures Accepts(s, index) && AnyMatch(t.board) ==>
      t.winner.Won? &&
      t.scores.Of(t.winner.player) == s.scores.Of(t.winner.player) + 1 &&
      t.scores.Of(Other(t.winner.player)) == s.scores.Of(Other(t.winner.player)) &&
      t.currentPlayer == s.currentPlayer &&
      forall k :: IsFirstMatch(t.board, k) ==>
        t.winner == Won(t.board[WinPatterns[k][0]].player) && t.winningCells == WinPatterns[k]
    // no line and a full board: a draw, nothing else changes
    ensures Accepts(s, index) && !AnyMatch(t.board) && Full(t.board) ==>
      t.winner == Draw && t.scores == s.scores &&
      t.currentPlayer == s.currentPlayer && t.winningCells == s.winningCells
    // no line and a cell left: the turn passes to the other player
    ensures Accepts(s, index) && !AnyMatch(t.board) && !Full(t.board) ==>
      t.winner == Nobody && t.scores == s.scores &&
      t.currentPlayer == Other(s.currentPlayer) && t.winningCells == s.winningCells
  {
    if !Accepts(s, index) then s
    else
      var newBoard := s.board[index := Marked(s.currentPlayer)];
      var e := Evaluate(newBoard);
      match e.result
      case Won(p) =>
        s.(board := newBoard, winner := e.result, winningCells := e.line,
           scores := s.scores.Add(p))
      case Draw => s.(board := newBoard, winner := Draw)
      case Nobody => s.(board := newBoard, currentPlayer := Other(s.currentPlayer))
  }

  /** Whose turn it is on a board where X opened and the players alternated. */
  function ToMove(b: Board): Player {
    if Count(b, Marked(X)) == Count(b, Marked(O)) then X else O
  }

  /**
   * The invariant of every state the component reaches: `winner` and
   * `winningCells` are what the evaluator says of the board, X has made as
   * many moves as O or one more, and `currentPlayer` is the player to move
   * while the game goes on, and the player who moved last once it is over.
   */
  ghost predicate Consistent(s: GameState) {
    var e := Evaluate(s.board);
    var nx, no := Count(s.board, Marked(X)), Count(s.board, Marked(O));
    s.winner == e.result && s.winningCells == e.line &&
    (nx == no || nx == no + 1) &&
    s.currentPlayer == (if s.winner == Nobody then ToMove(s.board) else Other(ToMove(s.board)))
  }

  lemma InitialConsistent(scores: Scores)
    ensures Consistent(Initial(scores))
  {
  }

  /** An accepted move fills exactly one more cell, with the mover's mark. */
  lemma ClickFillsOneCell(s: GameState, index: int)
    requires 0 <= index < 9
    requires Accepts(s, index)
    ensures Filled(Click(s, index).board) == Filled(s.board) + 1
    ensures Count(Click(s, index).board, Marked(s.currentPlayer))
         == Count(s.board, Marked(s.currentPlayer)) + 1
    ensures Count(Click(s, index).board, Marked(Other(s.currentPlayer)))
         == Count(s.board, Marked(Other(s.currentPlayer)))
  {
    var m := Marked(s.currentPlayer);
    assert Click(s, index).board == s.board[index := m];
    CountUpdate(s.board, index, m, Empty);
    CountUpdate(s.board, index, m, m);
    CountUpdate(s.board, index, m, Marked(Other(s.currentPlayer)));
  }

  /**
   * In a reachable state, a move can only be won by the player who made it,
   * on a line through the cell just marked.
   */
  lemma WinnerIsMover(s: GameState, index: int)
    requires 0 <= index < 9
    requires Consistent(s) && Accepts(s, index)
    ensures Click(s, index).winner.Won? ==> Click(s, index).winner.player == s.currentPlayer
    ensures forall k :: IsFirstMatch(Click(s, index).board, k) ==> index in WinPatterns[k]
  {
    NewLineThroughMove(s.board, index, s.currentPlayer);
  }

  /** A drawn game has filled all nine cells, five of them with X, who moved last. */
  lemma DrawFillsBoard(s: GameState)
    requires Consistent(s) && s.winner == Draw
    ensures Filled(s.board) == 9
    ensures Count(s.board, Marked(X)) == 5 && Count(s.board, Marked(O)) == 4
    ensures s.currentPlayer == X
  {
    FullIffNoEmpty(s.board);
    CountSplit(s.board);
  }

  /** Every move keeps the invariant. */
  lemma ClickPreservesConsistent(s: GameState, index: int)
    requires 0 <= index < 9
    requires Consistent(s)
    ensures Consistent(Click(s, index))
  {
    if Accepts(s, index) {
      var m := Marked(s.currentPlayer);
      assert Click(s, index).board == s.board[index := m];
      CountUpdate(s.board, index, m, Marked(X));
      CountUpdate(s.board, index, m, Marked(O));
    }
  }

  /** The user's two interactions: a click on a cell, and the reset button. */
  datatype Action = ClickCell(index: Index) | ResetGame

  function Step(s: GameState, a: Action): GameState {
    match a
    case ClickCell(i) => Click(s, i)
    case ResetGame => Initial(s.scores)
  }

  /** The state after a session's interactions, in order. */
  function Run(s: GameState, actions: seq<Action>): GameState
    decreases |actions|
  {
    if actions == [] then s else Run(Step(s, actions[0]), actions[1..])
  }

  /** Clicks and resets in any order keep the invariant. */
  lemma {:induction false} RunKeepsConsistent(s: GameState, actions: seq<Action>)
    requires Consistent(s)
    ensures Consistent(Run(s, actions))
    decreases |actions|
  {
    if actions != [] {
      match actions[0] {
        case ClickCell(i) => ClickPreservesConsistent(s, i);
        case ResetGame => InitialConsistent(s.scores);
      }
      RunKeepsConsistent(Step(s, actions[0]), actions[1..]);
    }
  }

  /** Scores never decrease over a session: resets keep them, moves only add. */
  lemma {:induction false} RunScoresGrow(s: GameState, actions: seq<Action>)
    ensures forall p: Player :: Run(s, actions).scores.Of(p) >= s.scores.Of(p)
    decreases |actions|
  {
    if actions != [] {
      var s' := Step(s, actions[0]);
      assert forall p: Player :: s'.scores.Of(p) >= s.scores.Of(p) by {
        match actions[0]
        case ClickCell(i) =>
          if Accepts(s, i) {
            var nb := s.board[i := Marked(s.currentPlayer)];
            assert Click(s, i).board == nb;
          }
        case ResetGame =>
      }
      RunScoresGrow(s', actions[1..]);
    }
  }

  /** The component: its state lives in fields that the handlers overwrite. */
  class App {
    var board: Board
    var currentPlayer: Player
    var winner: Winner
    var winningCells: seq<Index>
    var scores: Scores

    function State(): GameState
      reads this
    {
      GameState(board, currentPlayer, winner, winningCells, scores)
    }

    ghost predicate Valid()
      reads this
    {
      Consistent(State())
    }

    /** The initial `useState` values: an empty board, X to move, no scores. */
    constructor ()
      ensures State() == Initial(Scores(0, 0))
      ensures Valid()
    {
      board := EmptyBoard;
      currentPlayer := X;
      winner := Nobody;
      winningCells := [];
      scores := Scores(0, 0);
      new;
      InitialConsistent(scores);
    }

    /** `handleClick(index)`. */
    method HandleClick(index: int)
      requires 0 <= index < 9
      modifies this
      ensures State() == Click(old(State()), index)
      ensures old(Valid()) ==> Valid()
    {
      ghost var before := State();
      if board[index] != Empty || winner != Nobody {
        return;
      }
      var newBoard := new Cell[9](i requires 0 <= i < 9 reads this => board[i]);
      newBoard[index] := Marked(currentPlayer);
      assert newBoard[..] == before.board[index := Marked(currentPlayer)];
      board := newBoard[..];

      var gameWinner, pattern := CheckWinner(board);
      if gameWinner.Won? {
        winningCells := pattern;
      }
      if gameWinner != Nobody {
        winner := gameWinner;
        if gameWinner != Draw {
          var p := gameWinner.player;
          scores := scores.Add(p);
        }
      } else {
        currentPlayer := if currentPlayer == X then O else X;
      }
      assert State() == Click(before, index);
      if Consistent(before) {
        ClickPreservesConsistent(before, index);
      }
    }

    /** `resetGame`: a fresh game with X to move; the scores are kept. */
    method Reset()
      modifies this
      ensures State() == Initial(old(scores))
      ensures Valid()
    {
      board := EmptyBoard;
      currentPlayer := X;
      winner := Nobody;
      winningCells := [];
      InitialConsistent(scores);
    }
  }
}

/**
 * The rules of the game: marks, the board, the eight winning lines, and the
 * win evaluator (`checkWinner` in app.tsx) with its specification.
 */
module Rules {

  /** The two players; X always opens a game. */
  datatype Player = X | O

  /** A cell is empty (`null` in the source) or holds one player's mark. */
  datatype Cell = Empty | Marked(player: Player)

  /** The `winner` state: nobody yet (`null`), a player, or a draw. */
  datatype Winner = Nobody | Won(player: Player) | Draw

  /** An index into the 3x3 grid, row-major. */
  type Index = i: int | 0 <= i < 9

  /** The board always has exactly nine cells. */
  type Board = b: seq<Cell> | |b| == 9 witness [Empty, Empty, Empty, Empty, Empty, Empty, Empty, Empty, Empty]

  /** A winning line is an ordered triple of cell indices. */
  type Line = l: seq<Index> | |l| == 3 witness [0, 1, 2]

  function Other(p: Player): (q: Player)
    ensures q != p
  {
    if p == X then O else X
  }

  /** The fixed table of lines, in the order the evaluator scans them. */
  const WinPatterns: seq<Line> := [
    [0, 1, 2], [3, 4, 5], [6, 7, 8],  // rows
    [0, 3, 6], [1, 4, 7], [2, 5, 8],  // columns
    [0, 4, 8], [2, 4, 6]              // diagonals
  ]

  const EmptyBoard: Board := [Empty, Empty, Empty, Empty, Empty, Empty, Empty, Empty, Empty]

  /** All three cells of `line` hold the same mark (empty cells never match). */
  predicate Matches(b: Board, line: Line) {
    b[line[0]] != Empty && b[line[0]] == b[line[1]] && b[line[0]] == b[line[2]]
  }

  /** Some line of the table matches. */
  ghost predicate AnyMatch(b: Board) {
    exists k :: 0 <= k < |WinPatterns| && Matches(b, WinPatterns[k])
  }

  /** Line number `k` matches and no line before it in the table does. */
  ghost predicate IsFirstMatch(b: Board, k: int) {
    0 <= k < |WinPatterns| && Matches(b, WinPatterns[k]) &&
    forall j :: 0 <= j < k ==> !Matches(b, WinPatterns[j])
  }

  /** Every cell is occupied (`boardState.every(cell => cell !== null)`). */
  predicate Full(b: Board) {
    forall i :: 0 <= i < |b| ==> b[i] != Empty
  }

  /**
   * The position of the first matching line at or after `from`, or
   * `|WinPatterns|` when none matches.
   */
  function FirstMatch(b: Board, from: nat): (k: nat)
    requires from <= |WinPatterns|
    ensures from <= k <= |WinPatterns|
    ensures k < |WinPatterns| ==> Matches(b, WinPatterns[k])
    ensures forall j :: from <= j < k ==> !Matches(b, WinPatterns[j])
    decreases |WinPatterns| - from
  {
    if from == |WinPatterns| then from
    else if Matches(b, WinPatterns[from]) then from
    else FirstMatch(b, from + 1)
  }

  /** What the evaluator reports: the result and the line it highlights. */
  datatype Evaluation = Evaluation(result: Winner, line: seq<Index>)

  /**
   * The evaluator's meaning: a player wins exactly when some line matches,
   * and then the result and the line come from the first matching line of
   * the table; otherwise the game is drawn exactly when the board is full.
   */
  function Evaluate(b: Board): (e: Evaluation)
    ensures e.result.Won? <==> AnyMatch(b)
    ensures forall k :: IsFirstMatch(b, k) ==>
      e == Evaluation(Won(b[WinPatterns[k][0]].player), WinPatterns[k])
    ensures e.result.Won? ==>
      e.line in WinPatterns && forall j :: 0 <= j < 3 ==> b[e.line[j]] == Marked(e.result.player)
    ensures e.result == Draw <==> !AnyMatch(b) && Full(b)
    ensures e.result == Nobody <==> !AnyMatch(b) && !Full(b)
    ensures !e.result.Won? ==> e.line == []
  {
    var k := FirstMatch(b, 0);
    if k < |WinPatterns| then
      var line := WinPatterns[k];
      Evaluation(Won(b[line[0]].player), line)
    else if Full(b) then Evaluation(Draw, [])
    else Evaluation(Nobody, [])
  }

  /**
   * `checkWinner`: scan the table in order and stop at the first matching
   * line, handing it back so that the caller can highlight it; with no match,
   * report a draw on a full board and nothing otherwise.
   */
  method CheckWinner(boardState: Board) returns (winner: Winner, pattern: seq<Index>)
    ensures Evaluation(winner, pattern) == Evaluate(boardState)
  {
    for k := 0 to |WinPatterns|
      invariant forall j :: 0 <= j < k ==> !Matches(boardState, WinPatterns[j])
    {
      var line := WinPatterns[k];
      var a, b, c := line[0], line[1], line[2];
      if boardState[a] != Empty && boardState[a] == boardState[b] && boardState[a] == boardState[c] {
        return Won(boardState[a].player), line;
      }
    }
    if Full(boardState) {
      return Draw, [];
    }
    return Nobody, [];
  }

  /**
   * On a board with no line, a line that matches once `p` marks cell `i`
   * passes through `i` and holds `p`'s mark.
   */
  lemma NewLineThroughMove(b: Board, i: Index, p: Player)
    requires !AnyMatch(b)
    ensures forall k :: 0 <= k < |WinPatterns| && Matches(b[i := Marked(p)], WinPatterns[k]) ==>
      i in WinPatterns[k] && b[i := Marked(p)][WinPatterns[k][0]] == Marked(p)
  {
  }

  /** Number of cells of `b` holding `c`. */
  function Count(b: seq<Cell>, c: Cell): (n: nat)
    ensures n <= |b|
  {
    if b == [] then 0 else (if b[0] == c then 1 else 0) + Count(b[1..], c)
  }

  /** Number of occupied cells. */
  function Filled(b: seq<Cell>): nat {
    |b| - Count(b, Empty)
  }

  /** Writing `v` into cell `i` changes the count of `c` by the cells lost and gained. */
  lemma {:induction false} CountUpdate(b: seq<Cell>, i: int, v: Cell, c: Cell)
    requires 0 <= i < |b|
    ensures Count(b[i := v], c) + (if b[i] == c then 1 else 0)
         == Count(b, c) + (if v == c then 1 else 0)
  {
    if i > 0 {
      assert b[i := v][1..] == b[1..][i - 1 := v];
      CountUpdate(b[1..], i - 1, v, c);
    } else {
      assert b[i := v][1..] == b[1..];
    }
  }

  /** Every cell is empty or holds one of the two marks. */
  lemma {:induction false} CountSplit(b: seq<Cell>)
    ensures Count(b, Empty) + Count(b, Marked(X)) + Count(b, Marked(O)) == |b|
  {
    if b != [] {
      CountSplit(b[1..]);
      match b[0]
      case Empty =>
      case Marked(p) => assert p == X || p == O;
    }
  }

  /** A board with no empty cell is full, and conversely. */
  lemma {:induction false} FullIffNoEmpty(b: seq<Cell>)
    ensures (forall i :: 0 <= i < |b| ==> b[i] != Empty) <==> Count(b, Empty) == 0
  {
    if b != [] {
      FullIffNoEmpty(b[1..]);
      if Count(b, Empty) == 0 {
        forall i | 0 <= i < |b| ensures b[i] != Empty {
          if i > 0 { assert b[i] == b[1..][i - 1]; }
        }
      }
      if forall i :: 0 <= i < |b| ==> b[i] != Empty {
        forall i | 0 <= i < |b[1..]| ensures b[1..][i] != Empty {
          assert b[1..][i] == b[i + 1];
        }
      }
    }
  }
}

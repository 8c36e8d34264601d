# Tic Tac Toe game logic in Dafny

This project models the game logic of a single-page Tic Tac Toe app for two
players on one device. The app keeps a running score and has a reset button.
All of the logic lives in one React component, `App`, held in five pieces of
state:

- `board`: nine cells, each empty, `X` or `O`;
- `currentPlayer`: whose turn it is;
- `winner`: nobody yet, a player, or `Draw`;
- `winningCells`: the highlighted line;
- `scores`: one win count per player.

Three operations act on that state:

- the win evaluator `checkWinner`;
- the move handler `handleClick`;
- the reset `resetGame`.

The model has three modules:

- `Rules` (rules.dfy) holds the cell, player and result types and the table
  of eight winning lines. `Evaluate` is the evaluator's specification: the
  first matching line in table order decides the winner, and otherwise a
  full board is a draw. `CheckWinner` is the source's loop with its early
  return, proved equal to `Evaluate`.
- `Session` (session.dfy) holds the state snapshot `GameState` and two
  functions. `Click` is what one click does to a snapshot. `Initial` is a
  fresh game with the scores kept. The class `App` holds the five pieces of
  state as fields. `App.HandleClick` and `App.Reset` update those fields in
  the order the handlers do. `HandleClick` copies the board into a fresh
  array and writes the clicked cell in place. Each method is proved equal to
  its function. `Consistent` is the invariant of every reachable state:
  - `winner` and `winningCells` are what the evaluator says of the board;
  - X has made as many moves as O, or one more;
  - `currentPlayer` is the player to move while the game goes on, and the
    player who moved last once it is over.

  Clicks and resets keep this invariant. Scores never decrease over a
  session.
- `Scenarios` (scenarios.dfy) plays whole games through `Click`.

The React `useState` setters are modelled as direct field writes, made in
the order the handlers call them. Within one handler the source reads the
state values from before the click, and the model does the same. The
highlighted line is written where `checkWinner` calls `setWinningCells`.
That is only on a player win, so after a draw or a quiet move the line keeps
its old value. That old value is always empty (`Consistent`).

The scores are a record with one count per player (`Scores`), not a map.
The source's `prev[gameWinner] + 1` can then only reach the two players.

The move list X:0, O:1, X:3, O:4, X:2, O:6, X:5, O:7, X:8 looks as if it
fills the board. But O's eighth move completes the middle column 1, 4, 7, so
O wins and X's ninth click is ignored (`Scenarios.InterleavedGameIsWonByO`).
`Scenarios.DrawnGame` plays a game that really is drawn.

## Model

| member | source | states |
|---|---|---|
| `Rules.FirstMatch` | app.tsx:21-25 | The result is the position of the first line, at or after `from`, whose three cells hold the same mark; every line between `from` and the result fails to match; the result is `|WinPatterns|` exactly when no such line exists. |
| `Rules.Evaluate` | app.tsx:20-30 | A player wins exactly when some line of the table matches. The winner and the reported line come from the first matching line in table order. The winner's mark is in all three cells of the reported line, and empty cells never match. Otherwise the result is a draw exactly when every cell is filled, and nobody when a cell is left. Without a win the line is empty. |
| `Rules.CheckWinner` | app.tsx:20-30 | The loop over the table, which returns at the first matching line, yields the same result and line as `Evaluate`. |
| `Rules.NewLineThroughMove` | app.tsx:35-39 | On a board with no line, any line that matches after `p` marks cell `i` passes through `i` and holds `p`'s mark. |
| `Rules.CountUpdate` | app.tsx:35-36 | Writing one cell changes the number of cells holding a given value by exactly the old value lost and the new value gained. |
| `Rules.CountSplit` | app.tsx:4-5 | Every cell is empty, `X` or `O`, so the three counts add up to the board's length. |
| `Rules.FullIffNoEmpty` | app.tsx:28 | The `every(cell => cell !== null)` test holds exactly when no cell is empty. |
| `Session.Scores.Add` | app.tsx:43-46 | The winner's count goes up by one and the other player's count is unchanged. |
| `Session.Click` | app.tsx:32-51 | A click on an occupied cell, or any click once `winner` is set, changes nothing. An accepted click writes the current player's mark into that cell and leaves the other eight alone. If a line is completed, that player becomes `winner` and gains one point (the other score is unchanged), the first matching line is highlighted, and `currentPlayer` stays. If no line is completed and the board is full, `winner` becomes `Draw` and the scores, turn and highlight stay. If no line is completed and a cell is left, the turn passes to the other player and `winner`, scores and highlight stay. |
| `Session.ClickFillsOneCell` | app.tsx:35-37 | An accepted click fills exactly one more cell. The mover's count rises by one and the other player's count is unchanged. |
| `Session.WinnerIsMover` | app.tsx:35-41 | In a reachable state, a click can only be won by the player who made it, on a line through the clicked cell. |
| `Session.DrawFillsBoard` | app.tsx:28 | In a reachable drawn state, all nine cells are filled: five with X and four with O. X moved last and is still `currentPlayer`. |
| `Session.InitialConsistent` | app.tsx:8-12 | The starting state (empty board, X to move, no winner, no highlight, any scores) satisfies the invariant `Consistent`. |
| `Session.ClickPreservesConsistent` | app.tsx:32-51 | Every click keeps `Consistent`. `winner` and `winningCells` stay what the evaluator says of the board. X stays level with O or one ahead. The turn alternates while the game goes on and stays with the last mover once it is over. |
| `Session.RunKeepsConsistent` | app.tsx:32-58 | Every sequence of clicks and resets keeps `Consistent`. |
| `Session.RunScoresGrow` | app.tsx:43-58 | Over any sequence of clicks and resets, no player's score goes down. |
| `Session.App.constructor` | app.tsx:8-12 | The component starts with an empty board, X to move, no winner, no highlight and both scores at 0, and its state satisfies `Consistent`. |
| `Session.App.HandleClick` | app.tsx:32-51 | The new field values are exactly `Click` of the old ones. The invariant is kept. |
| `Session.App.Reset` | app.tsx:53-58 | Afterwards the board is nine empty cells, X is to move, there is no winner and no highlight. The scores are untouched. The invariant holds. |
| `Scenarios.TopRowWin` | app.tsx:32-51 | In the game X:0, O:3, X:1, O:4, X:2, X wins with line `[0, 1, 2]`. X's score rises by one and O's is unchanged. |
| `Scenarios.Opening` | app.tsx:32-51 | After X:0, O:1, X:2, O:4, X:3 nothing is decided and O is to move. |
| `Scenarios.MiddleColumnWin` | app.tsx:32-51 | After that opening, O:7 wins for O with line `[1, 4, 7]`. O's score rises by one and O stays `currentPlayer`. |
| `Scenarios.DrawnGame` | app.tsx:28-50 | After that opening, O:5, X:7, O:6, X:8 fill the board with no line: a draw with no highlight and unchanged scores. |
| `Scenarios.InterleavedGameIsWonByO` | app.tsx:32-51 | In the game X:0, O:1, X:3, O:4, X:2, O:6, X:5, O:7, O wins on the eighth move with line `[1, 4, 7]`. The ninth click, X on cell 8, changes nothing. |
| `Scenarios.ScoresAccumulateAcrossReset` | app.tsx:43-58 | X wins a game, the board is reset, and O wins the next game. Each score has then risen by exactly one from its value before the first game. |
| `Scenarios.FirstOfTwoLines` | app.tsx:14-25 | On a full board where both the top row and the left column hold X, the evaluator reports a win for X on the top row, the earlier line in the table, not a draw. |

## Left out

- Rendering: the JSX markup, the styling class strings, the animation and the icons (app.tsx:60-128). These are presentation only.
- React mechanics: how the `useState` setters are batched and when the component re-renders. The setters are modelled as direct field writes in call order. The `useEffect` import is unused.
- The buttons' `disabled` flag (app.tsx:94). It repeats the handler's own guard (app.tsx:33), which is modelled.
- Clicks outside cells 0-8: `HandleClick` and `Click` require `0 <= index < 9`. In the source such an index reads `undefined` and passes the guard (app.tsx:33). An index of 9 or more grows the array; a negative or fractional one marks no cell and only passes the turn. The UI never produces one.
- Session length: the model counts wins with unbounded naturals. JavaScript numbers lose precision past 2^53 wins, which is not reachable in practice.

# Chess trainer: a Dafny model

This project models the logic of a small chess-training web application. It has a React front end and a Flask back end. The model covers:

- **The puzzle page** (`PuzzleSolver`). One attempt at a puzzle is a state machine. A dragged move is checked against the next solution move: a match commits it and plays the opponent's reply, a mismatch fails the attempt, and an illegal move only shows an error. The 120-second countdown fails the attempt when it runs out. "Show Solution" replays the solution move by move, and "Next Puzzle" moves on, wrapping after the last puzzle. Two library calls run inside React effects: opening a puzzle's FEN and replaying its solution. When either throws, the exception escapes the effect, and with no error boundary React removes the page. The model records this as the page being unmounted, with its intervals cleared.
- **The countdown** (`Timer`). It is a once-a-second tick counter that calls `onTimeUp` once, and it renders the seconds as `m:ss`.
- **Exercise authoring and browsing** (`ChessTrainer`). The author records moves as origin+destination+promotion identifiers and rewrites the side to move in the starting FEN. An opened exercise is stepped through on a list of positions, one more than it has moves.
- **The server** (`backend/app.py`). A create request replays the move list on a board whose side to move comes from `starting_color`. The request is refused at the first move that is malformed or not legal, and the exercise is stored only when every move passes. Deleting an unknown id answers 404.
- **The exercise list hook** (`useExercises`). After a successful remote call the list gets the new record appended, or loses the entries with the deleted id.

The chess rules are never reimplemented. They come from chess.js in the browser and python-chess on the server. Each library is a value of function type: `ChessRules.Rules` for chess.js and `Backend.PyRules` for python-chess, over abstract board types. chess.js can answer a move in three ways: it plays it, returns null (older versions) or throws (current versions). `ChessRules.MoveOutcome` keeps all three, because the source handles each one.

Each component's state is a datatype. The component's handlers are pure functions on that datatype, and those functions carry the properties. A class per component (`PuzzleSolver.Solver`, `ChessTrainer.Trainer`, `Countdown.Timer`, `ExerciseStore.ExerciseList`, `Backend.ExerciseTable`) performs the same handlers on mutable fields. Each of its methods is proved to leave exactly the state the pure function describes. Loops in the source are loops here as well:
- `PuzzleSolver.Replay`: the replay `forEach`;
- `ChessTrainer.BuildPositions`: the positions loop;
- `Backend.ValidateMoves`: the server's move loop.

Each loop is proved against the fold that specifies it.

Modules, one per file:
- `ChessRules` (`chess_rules.dfy`): the library oracle, move identifiers, and playing a list of moves.
- `Countdown` (`timer.dfy`).
- `PuzzleSolver` (`puzzle_solver.dfy`).
- `ChessTrainer` (`chess_trainer.dfy`).
- `ExerciseStore` (`exercise_store.dfy`).
- `Backend` (`backend.dfy`).

## Model

| member | source | states |
|---|---|---|
| ChessRules.Uci | frontend/src/components/ChessTrainer/index.jsx:58 | the recorded identifier is origin, then destination, then the promotion letter when there is one; its length is the sum of theirs |
| ChessRules.FromTo | frontend/src/components/PuzzleSolver/index.jsx:99 | the compared identifier is origin followed by destination, without the promotion |
| ChessRules.UciRoundTrip | frontend/src/components/ChessTrainer/index.jsx:58 | with two-character squares the identifier has length 4 or 5 and decodes back to the same move |
| ChessRules.PromotionEntryNeverMatches | frontend/src/components/PuzzleSolver/index.jsx:99-100 | a 5-character solution entry (one with a promotion letter) never equals what a move attempt is compared as |
| ChessRules.FromToAgreesWithUci | frontend/src/components/PuzzleSolver/index.jsx:99 | the compared and the recorded identifier agree exactly when the move has no promotion |
| ChessRules.PlayText | frontend/src/components/PuzzleSolver/index.jsx:167 | one step of the `forEach`: the walk ends exactly when the library throws; a null answer keeps the board; a played move gives the board it produced |
| ChessRules.PlayAll | frontend/src/components/PuzzleSolver/index.jsx:167 | playing no moves keeps the board; playing one move is one step; a walk that reaches its end did not throw on its first move |
| ChessRules.PlayAllAppend | frontend/src/components/PuzzleSolver/index.jsx:167 | playing a concatenation of move lists is playing the first list, then the second from where it ended |
| ChessRules.PlayAllStep | frontend/src/components/PuzzleSolver/index.jsx:167 | each further move extends the previous result by one step of the library |
| ChessRules.PlayAllStaysFailed | frontend/src/components/PuzzleSolver/index.jsx:167 | once a move throws, every longer prefix throws too |
| Countdown.Mounted | frontend/src/components/Timer/index.jsx:5-8 | the seconds left start at the budget; the interval is armed exactly when the timer is running |
| Countdown.Resynced | frontend/src/components/Timer/index.jsx:7-24 | re-running the effect arms the interval exactly when running and keeps the seconds left |
| Countdown.Ticked | frontend/src/components/Timer/index.jsx:10-19 | a tick with more than 1 second left decrements it; a tick with 1 or fewer left sets 0, stops and calls `onTimeUp`; `onTimeUp` is called iff armed with at most 1 second left; no tick while not running; the seconds left never go negative or up |
| Countdown.RunStopped | frontend/src/components/Timer/index.jsx:8 | a timer that is not running never changes and never calls `onTimeUp` |
| Countdown.RunFiresOnce | frontend/src/components/Timer/index.jsx:13-18 | a running timer counts down one second per tick, reaches 0 on a known tick, calls `onTimeUp` exactly once there and is stopped afterwards |
| Countdown.PuzzleBudgetRunsOut | frontend/src/components/Timer/index.jsx:10-19 | a 120-second budget has 1 second left after 119 ticks and has fired once after 120 |
| Countdown.Decimal | frontend/src/components/Timer/index.jsx:30 | the decimal rendering denotes the number; it starts with a zero only for 0 itself, so anything longer than one digit has no leading zero; it has one digit below 10 and two below 100 |
| Countdown.SecondsField | frontend/src/components/Timer/index.jsx:30 | the seconds field is always two digits, zero-padded, and denotes the seconds |
| Countdown.FormatTime | frontend/src/components/Timer/index.jsx:27-31 | the text before the colon is the unpadded decimal of `s div 60`, so it has no leading zero; the two digits after it are `s mod 60` |
| Countdown.FormatTimeReadsBack | frontend/src/components/Timer/index.jsx:27-31 | reading the rendered minutes and seconds back gives the same number of seconds `s`, for every `s` |
| Countdown.FormatTimeExamples | frontend/src/components/Timer/index.jsx:27-31 | 120 renders as "2:00" and 65 as "1:05" |
| Countdown.Timer.constructor | frontend/src/components/Timer/index.jsx:4-8 | mounting gives the `Mounted` state |
| Countdown.Timer.Resync | frontend/src/components/Timer/index.jsx:7-24 | the timer ends in the `Resynced` state |
| Countdown.Timer.Tick | frontend/src/components/Timer/index.jsx:10-19 | the timer ends in the `Ticked` state and reports whether `onTimeUp` was called |
| PuzzleSolver.ReplayBoard | frontend/src/components/PuzzleSolver/index.jsx:165-167 | frame 0 is the puzzle's start as the library opens it, and no frame exists when the start is rejected |
| PuzzleSolver.ReplayBoardStep | frontend/src/components/PuzzleSolver/index.jsx:166-167 | consecutive replay frames differ by exactly the next solution move |
| PuzzleSolver.ReplayEffect | frontend/src/components/PuzzleSolver/index.jsx:164-170 | without a puzzle nothing changes; otherwise the board becomes the puzzle start with the first `replayIndex` solution moves played, and nothing else changes; when the library throws on the way, the page is torn down (unmounted, replay interval cleared) with the board it had |
| PuzzleSolver.Loaded | frontend/src/components/PuzzleSolver/index.jsx:48-67 | the list and the index are kept; loading resets solved, failed, move index, solution display, replay and error, and shows the puzzle's start; a FEN the library rejects throws out of the effect, which tears the page down and changes nothing else |
| PuzzleSolver.Mounted | frontend/src/components/PuzzleSolver/index.jsx:13-52 | the page starts at index 0 with no attempt under way; with no puzzles it shows the start position with no puzzle; otherwise the first puzzle is loaded, and the page is torn down exactly when its FEN is rejected |
| PuzzleSolver.MatchesSolution | frontend/src/components/PuzzleSolver/index.jsx:98-100 | a matching move has the length of the expected entry, and without a promotion its full identifier is that entry |
| PuzzleSolver.Commit | frontend/src/components/PuzzleSolver/index.jsx:101-116 | only the board, the move index and the solved flag change; the attempt is solved iff the index reaches the end of the solution, and the index bounds are kept |
| PuzzleSolver.Attempt | frontend/src/components/PuzzleSolver/index.jsx:69-124 | a solved or failed attempt rejects the move unchanged; an illegal move (null or thrown) only sets the error; a legal move is judged as `Judged` states, so it is accepted exactly when legal and the attempt was open; indexes stay in range and solved/failed stay exclusive |
| PuzzleSolver.TimedOut | frontend/src/components/PuzzleSolver/index.jsx:126-128 | time-up fails the attempt and changes nothing else; it keeps the page's invariants, and an unsolved attempt stays never both solved and failed |
| PuzzleSolver.CommitCorrect | frontend/src/components/PuzzleSolver/index.jsx:100-116 | a correct move never fails the attempt; it advances the index by two iff a reply follows and the library plays it, by one otherwise, and the board shows the user's move, or the reply when it was played; the attempt is solved iff the index reaches the end; a reply that throws escapes with the index unchanged and the user's move on the board; indexes stay in range |
| PuzzleSolver.Judged | frontend/src/components/PuzzleSolver/index.jsx:94-121 | on every path the error is cleared; a move other than the next solution move fails the attempt and changes nothing else; a correct move advances by one or two and shows the user's move or the reply, as `CommitCorrect` states; the exception escapes iff there is no puzzle (board unchanged) or the reply throws (user's move on the board); solved and failed stay exclusive |
| PuzzleSolver.Successor | frontend/src/components/PuzzleSolver/index.jsx:131 | the next index is in range; it is zero iff the current index is the last one, and one more otherwise |
| PuzzleSolver.Advanced | frontend/src/components/PuzzleSolver/index.jsx:130-132 | the index becomes `(i + 1) mod n` and that puzzle is loaded; an unchanged index reloads nothing |
| PuzzleSolver.SolutionShown | frontend/src/components/PuzzleSolver/index.jsx:135-170 | the solution is shown from replay index 0; only the display, the replay, the board and the teardown flag can change; the stepping starts when the solution was not shown yet and is kept as it was otherwise; the board is rebuilt to the puzzle start only when the replay index changed; when that start is rejected the page is torn down |
| PuzzleSolver.ReplayStepped | frontend/src/components/PuzzleSolver/index.jsx:145-153 | a step raises the replay index by one and rebuilds the board; the stepping goes on exactly when the library can build that board, and otherwise the page is torn down; at the last move the stepping stops; the index never exceeds the number of moves |
| PuzzleSolver.ReplayWalksTheSolution | frontend/src/components/PuzzleSolver/index.jsx:141-170 | once started, and as long as the library can play the solution, the replay visits every solution move in order, showing each prefix, and stops one step after the last |
| PuzzleSolver.ClockTicked | frontend/src/components/PuzzleSolver/index.jsx:194-199 | the countdown runs only while the attempt is neither solved nor failed and the page is still mounted, and running out fails it |
| PuzzleSolver.UnattendedAttemptTimesOut | frontend/src/components/PuzzleSolver/index.jsx:126-128 | an attempt left alone is failed exactly once its seconds run out, after a single `onTimeUp` |
| PuzzleSolver.ClockRunResolved | frontend/src/components/PuzzleSolver/index.jsx:198 | a solved or failed attempt freezes the countdown |
| PuzzleSolver.LoadStartsOnSolutionLine | frontend/src/components/PuzzleSolver/index.jsx:54-67 | a loaded puzzle shows its start, the position of zero solution moves |
| PuzzleSolver.MoveKeepsSolutionLine | frontend/src/components/PuzzleSolver/index.jsx:99-119 | with a consistent library, the board always shows the start with exactly the consumed solution moves played |
| PuzzleSolver.SolvedShowsFullSolution | frontend/src/components/PuzzleSolver/index.jsx:114-116 | a solved attempt shows the position of the whole solution |
| PuzzleSolver.Replay | frontend/src/components/PuzzleSolver/index.jsx:165-167 | the replay loop builds the board of the first `k` solution moves, or none when the library throws |
| PuzzleSolver.Solver.constructor | frontend/src/components/PuzzleSolver/index.jsx:13-52 | the page ends in the `Mounted` state with a full 120-second timer |
| PuzzleSolver.Solver.RunReplayEffect | frontend/src/components/PuzzleSolver/index.jsx:164-170 | the page ends in the `ReplayEffect` state |
| PuzzleSolver.Solver.LoadPuzzle | frontend/src/components/PuzzleSolver/index.jsx:54-67 | the page ends in the `Loaded` state |
| PuzzleSolver.Solver.Reset | frontend/src/components/PuzzleSolver/index.jsx:58-66 | the list, index and teardown flag are kept, and the page holds the puzzle on its board with no attempt under way |
| PuzzleSolver.Solver.HandleMove | frontend/src/components/PuzzleSolver/index.jsx:69-124 | on a mounted page, the page ends in the `Attempt` state and returns its reply |
| PuzzleSolver.Solver.Respond | frontend/src/components/PuzzleSolver/index.jsx:94-121 | the page ends in the `Judged` state and returns its reply; the timer is untouched |
| PuzzleSolver.Solver.CommitMove | frontend/src/components/PuzzleSolver/index.jsx:100-116 | the page ends in the `CommitCorrect` state and returns its reply; the timer is untouched |
| PuzzleSolver.Solver.RemountTimer | frontend/src/components/PuzzleSolver/index.jsx:194-199 | a fresh timer mounts with 120 seconds, running iff the attempt is neither solved nor failed; the page state is unchanged |
| PuzzleSolver.Solver.TimeUp | frontend/src/components/PuzzleSolver/index.jsx:126-128 | the page ends in the `TimedOut` state |
| PuzzleSolver.Solver.ClockTick | frontend/src/components/PuzzleSolver/index.jsx:194-199 | the page and its timer end in the `ClockTicked` state |
| PuzzleSolver.Solver.NextPuzzle | frontend/src/components/PuzzleSolver/index.jsx:130-132 | the page ends in the `Advanced` state; a changed index remounts the timer with 120 seconds |
| PuzzleSolver.Solver.ShowSolution | frontend/src/components/PuzzleSolver/index.jsx:135-162 | the page ends in the `SolutionShown` state |
| PuzzleSolver.Solver.ReplayTick | frontend/src/components/PuzzleSolver/index.jsx:145-153 | the page ends in the `ReplayStepped` state |
| ChessTrainer.Initial | frontend/src/components/ChessTrainer/index.jsx:14-23 | the page starts in free mode on the start board with nothing open (index -1), not creating, no recorded moves, empty motives, starting colour "white" and the standard start FEN as the exercise FEN |
| ChessTrainer.PromotionFor | frontend/src/components/ChessTrainer/index.jsx:55 | a queen promotion is requested exactly when the dragged piece is a pawn |
| ChessTrainer.Dropped | frontend/src/components/ChessTrainer/index.jsx:38-67 | drops are refused with no change while an exercise is open; while recording, a played move appends exactly its identifier and a refused one changes nothing; only the board and the recorded moves ever change |
| ChessTrainer.TurnField | frontend/src/components/ChessTrainer/index.jsx:73 | the turn field is the colour's first letter, or empty for an empty colour |
| ChessTrainer.Split | frontend/src/components/ChessTrainer/index.jsx:72 | splitting gives at least one piece and no piece holds a space |
| ChessTrainer.Join | frontend/src/components/ChessTrainer/index.jsx:74 | the joined text starts with the first piece, followed by a space when more pieces follow |
| ChessTrainer.JoinSplit | frontend/src/components/ChessTrainer/index.jsx:72-74 | joining the split pieces gives the FEN back |
| ChessTrainer.SplitJoin | frontend/src/components/ChessTrainer/index.jsx:72-74 | splitting a join of space-free pieces gives the pieces back |
| ChessTrainer.WithTurn | frontend/src/components/ChessTrainer/index.jsx:72-74 | only the second field is replaced, by the colour's first letter; every other field is unchanged |
| ChessTrainer.WithTurnRestores | frontend/src/components/ChessTrainer/index.jsx:72-74 | writing back the turn that is already there gives the same FEN |
| ChessTrainer.ExerciseStarted | frontend/src/components/ChessTrainer/index.jsx:69-84 | recording starts from the rewritten FEN with no moves; a FEN the library rejects changes nothing |
| ChessTrainer.NewExerciseStartsRecording | frontend/src/components/ChessTrainer/index.jsx:76-80 | a new exercise starts with its recorded moves (none) replaying to the board |
| ChessTrainer.RecordingReplays | frontend/src/components/ChessTrainer/index.jsx:50-61 | with a consistent library, the recorded moves replayed from the exercise's start lead to the board on screen |
| ChessTrainer.Submitted | frontend/src/components/ChessTrainer/index.jsx:88-93 | the saved record carries the start FEN, the recorded moves, the starting colour and the motives |
| ChessTrainer.Finish | frontend/src/components/ChessTrainer/index.jsx:86-103 | authoring is reset to free mode on the start position only when the save succeeded |
| ChessTrainer.Trail | frontend/src/components/ChessTrainer/index.jsx:107-113 | the position list starts with the starting FEN and has one entry more than there are moves; it exists only if the first move did not throw |
| ChessTrainer.Positions | frontend/src/components/ChessTrainer/index.jsx:105-113 | the positions exist only when the starting FEN loads; they start with its FEN and have one entry more than there are moves |
| ChessTrainer.TrailShape | frontend/src/components/ChessTrainer/index.jsx:105-113 | the positions exist exactly when every move plays; there is one more of them than moves, and entry `i` is the FEN after the first `i` moves |
| ChessTrainer.BuildPositions | frontend/src/components/ChessTrainer/index.jsx:105-113 | the loop builds exactly those positions, starting with the initial FEN |
| ChessTrainer.ExerciseOpened | frontend/src/components/ChessTrainer/index.jsx:105-121 | the exercise opens at index 0 with its positions and shows the first; only the open exercise, the index and the board change; a failure while building changes nothing |
| ChessTrainer.ShowPosition | frontend/src/components/ChessTrainer/index.jsx:135-137 | the index moves and the board shows that position |
| ChessTrainer.Previous | frontend/src/components/ChessTrainer/index.jsx:133-139 | one position back only when above 0, otherwise nothing happens, including with nothing open; the index stays within the positions |
| ChessTrainer.Next | frontend/src/components/ChessTrainer/index.jsx:141-147 | one position on only when below the last; the index stays within the positions |
| ChessTrainer.NextThenPrevious | frontend/src/components/ChessTrainer/index.jsx:133-147 | stepping on and back returns to the same index and position |
| ChessTrainer.StepsStopAtTheEnd | frontend/src/components/ChessTrainer/index.jsx:141-147 | `k` presses of next reach the index plus `k`, capped at the last position |
| ChessTrainer.Close | frontend/src/components/ChessTrainer/index.jsx:149-153 | closing clears the exercise, sets the index to -1 and shows the start position |
| ChessTrainer.Trainer.constructor | frontend/src/components/ChessTrainer/index.jsx:13-23 | the page ends in the `Initial` state with an empty exercise list |
| ChessTrainer.Trainer.Drop | frontend/src/components/ChessTrainer/index.jsx:38-67 | the page ends in the `Dropped` state and returns its answer |
| ChessTrainer.Trainer.NewExercise | frontend/src/components/ChessTrainer/index.jsx:69-84 | the page ends in the `ExerciseStarted` state |
| ChessTrainer.Trainer.FinishExercise | frontend/src/components/ChessTrainer/index.jsx:86-103 | sends `Submitted`, appends the saved record to the list, and ends in the `Finish` state |
| ChessTrainer.Trainer.LoadExercise | frontend/src/components/ChessTrainer/index.jsx:105-121 | the page ends in the `ExerciseOpened` state |
| ChessTrainer.Trainer.PreviousMove | frontend/src/components/ChessTrainer/index.jsx:133-139 | the page ends in the `Previous` state |
| ChessTrainer.Trainer.NextMove | frontend/src/components/ChessTrainer/index.jsx:141-147 | the page ends in the `Next` state |
| ChessTrainer.Trainer.SetMode | frontend/src/components/ChessTrainer/index.jsx:158-168 | the mode becomes the chosen one and nothing else changes |
| ChessTrainer.Trainer.SetMotives | frontend/src/components/ChessTrainer/index.jsx:192 | the motives become the typed text and nothing else changes |
| ChessTrainer.Trainer.SetStartingColor | frontend/src/components/ChessTrainer/index.jsx:193 | the starting colour becomes the chosen one and nothing else changes |
| ChessTrainer.Trainer.CloseExercise | frontend/src/components/ChessTrainer/index.jsx:149-153 | the page ends in the `Close` state |
| ExerciseStore.WithoutId | frontend/src/hooks/useExercises.js:32 | the filtered list holds no entry with the id, and it holds every other entry |
| ExerciseStore.WithoutIdAppend | frontend/src/hooks/useExercises.js:32 | filtering works piece by piece over a concatenation, so the survivors keep their order |
| ExerciseStore.WithoutAbsentId | frontend/src/hooks/useExercises.js:32 | a list without the id is left exactly as it was |
| ExerciseStore.RemoveUndoesAdd | frontend/src/hooks/useExercises.js:22-32 | removing the id of a record just appended (when it was new) restores the list |
| ExerciseStore.ExerciseList.constructor | frontend/src/hooks/useExercises.js:5 | the list starts empty |
| ExerciseStore.ExerciseList.Fetched | frontend/src/hooks/useExercises.js:7-17 | a successful fetch replaces the list wholesale, and a failed one leaves it |
| ExerciseStore.ExerciseList.Add | frontend/src/hooks/useExercises.js:19-27 | on success the record is appended, the length grows by one and the earlier entries are unchanged; on failure nothing changes and the error is reported |
| ExerciseStore.ExerciseList.Remove | frontend/src/hooks/useExercises.js:29-37 | on success the list is the filtered one; on failure nothing changes and the error is reported |
| Backend.TurnFor | backend/app.py:30 | the side to move is White exactly when `starting_color` is "white" |
| Backend.CheckMoves | backend/app.py:32-36 | a rejection names a move in the list, malformed exactly when it does not parse |
| Backend.CheckSnoc | backend/app.py:32-36 | checking one more move continues the check on the board the earlier moves reached |
| Backend.CheckStopsAtFirstFailure | backend/app.py:32-35 | moves before the rejected one all passed, the rejected move failed on the board they reached, and later moves are never examined |
| Backend.ValidateMoves | backend/app.py:32-36 | the loop computes exactly the `CheckMoves` fold |
| Backend.NextId | backend/app.py:44-46 | a new row's id is larger than every id in the table |
| Backend.Post | backend/app.py:24-49 | an exercise is stored exactly when all keys are present, the FEN parses and every move passes; a stored row gets a fresh id and is appended; a rejection leaves the table unchanged and an invalid move it names is in the list |
| Backend.RejectionNamesFirstFailure | backend/app.py:32-35 | the named invalid move is the first move not legal on the board the earlier moves reached, and appending moves does not change the answer |
| Backend.IndexOf | backend/app.py:64 | the lookup finds a row with the id exactly when the id is in the table |
| Backend.RemoveAtAscending | backend/app.py:68-69 | deleting a row keeps the others in id order |
| Backend.RemoveAtIds | backend/app.py:68-69 | deleting a row removes exactly its id |
| Backend.RemoveAtMembers | backend/app.py:68-69 | deleting a row keeps every other row |
| Backend.Delete | backend/app.py:62-70 | 404 exactly when the id is absent, with the table unchanged; otherwise 200 and exactly that row is gone |
| Backend.ExerciseTable.constructor | backend/app.py:72-74 | the table starts empty |
| Backend.ExerciseTable.HandlePost | backend/app.py:24-49 | the table and the answer are those of `Post` |
| Backend.ExerciseTable.HandleDelete | backend/app.py:62-70 | the table and the status are those of `Delete` |

Some members count for the proofs but model no source function, so they have no row. They are reference definitions that the lemmas above use:
- `ChessRules.DecodeUci` is the independent decoder for `UciRoundTrip`.
- `Countdown.ValueOf` and `Countdown.ParseClock` read digits and clock texts back, for `Decimal`, `SecondsField` and `FormatTimeReadsBack`.
- `Countdown.Run` and `Countdown.Due` describe a run of ticks, for `RunStopped` and `RunFiresOnce`.
- `ChessTrainer.Steps` repeats "next position", for `StepsStopAtTheEnd`.
- `PuzzleSolver.ReplaySteps` and `PuzzleSolver.ClockRun` describe runs of replay and clock ticks, for `ReplayWalksTheSolution`, `UnattendedAttemptTimesOut` and `ClockRunResolved`.
- `PuzzleSolver.ReplayBoardEarlier` is a step of the `ReplayWalksTheSolution` proof.

## Left out

- Chess rules: every legality check, move execution and FEN text comes from chess.js or python-chess. Both are modelled as functions over abstract boards and never reimplemented.
- Scheduling:
  - `setInterval` (the one-second countdown and the 3-second `SOLUTION_MOVE_DELAY`) is modelled as explicit tick methods.
  - The `setTimeout` that clears the 500 ms error shake is not modelled.
- The Timer's effect also depends on `onTimeUp`. The parent passes a new function on every render, so each render restarts the interval. That only shifts when the next tick comes, so the model re-synchronises the running flag at every tick.
- Network and storage:
  - The axios calls in `frontend/src/api/` are not modelled; each hook method receives the call's outcome.
  - `getPuzzleSequence` is not modelled: the page receives its puzzle list when it is built. The component reads `mode` from its whole props object, so the "ordered" list is never chosen, and this model does not capture that choice.
  - Flask routing and JSON encoding are not modelled.
  - SQLAlchemy is replaced by a sequence of rows, whose new ids follow SQLite's "largest rowid plus one".
  - Column length limits are not modelled (SQLite does not enforce them).
  - `created_at` is a parameter.
  - The GET endpoint is not modelled.
  - A body that is not JSON fails in `request.get_json()` outside the `try` and is not modelled.
  - JSON values of the wrong type, such as `moves` that is not a list, are excluded by the model's types.
- Display values: the floating-point `barWidth`, the progress percentage, and every rendering-only component (board, lists, forms, navigator, header, status, controls, login, app shell).
- `new Chess(game.fen())` copies: a board is a value here, so a copy is the same board.
- "Reset Board" and "Clear Board" are single board setters and are not modelled as operations. `window.confirm` and the `alert` calls are not modelled either.
- Countdown.FormatTime: takes a natural number. The only value the page formats is the seconds left, which `ClockValid` keeps at 0 or above.
- PuzzleSolver.Advanced: requires a non-empty puzzle list. The button only exists once puzzles are shown, and `% 0` would give NaN.
- ChessTrainer.Next: requires an open exercise. The navigator is only rendered with one, and the handler reads its positions before any check.
- PuzzleSolver.MoveKeepsSolutionLine: holds for move attempts that do not end in an escaping exception, and under the `Coherent` hypothesis on the library. A thrown reply leaves the user's move on the board without counting it.
- ChessTrainer.RecordingReplays: holds for exercise-mode drops. The mode buttons stay available while recording, and a free-mode drop moves pieces without recording them.
- Free-mode piece placement is the library call `relocate`. A piece string shorter than two characters, which would throw, is not modelled.
- ExerciseStore.ExerciseList.Add: appends whatever record the create call returned. The server answers with only the new id.
- PuzzleSolver.Loaded, PuzzleSolver.Mounted and PuzzleSolver.ReplayEffect: an exception from `new Chess(puzzle.initial_fen)` (index.jsx:56) or from `replayChess.move` (index.jsx:167) escapes the effect, and React then removes the page. The model records only that the page is unmounted and that its intervals stop. Its state is the last committed one. React's error reporting and the blank screen are not modelled.
- PuzzleSolver.Solver.HandleMove, PuzzleSolver.Solver.NextPuzzle and PuzzleSolver.Solver.ShowSolution: require a mounted page, since a removed page receives no drags or clicks. The pure functions are total.
- ChessTrainer.Trainer.FinishExercise: the awaited `addExercise` call (index.jsx:86-103) is one atomic step. Drops, mode changes or field edits made while the request is in flight are not modelled. On success the source overwrites those fields anyway.
- PuzzleSolver.Solver.constructor and ChessTrainer.Trainer.constructor: require the start FEN to load, since the component cannot mount otherwise.

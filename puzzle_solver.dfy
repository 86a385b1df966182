/** The puzzle page (the PuzzleSolver component).
 *
 *  One attempt at a puzzle: the user drags a piece, the move is played by the
 *  rules library and its origin+destination compared with the next solution
 *  move.  A match commits the move and lets the page play the opponent's
 *  reply (the next solution move) at once; a mismatch fails the attempt
 *  without committing the move; an illegal move only shows an error.  The
 *  countdown failing, "Show Solution" replaying the solution move by move,
 *  and "Next Puzzle" moving on (wrapping around) complete the page.
 *
 *  React state is one `Session` value.  The pure functions below are the
 *  transitions; the class `Solver` performs them in place and its methods are
 *  proved to agree with them.
 */
module PuzzleSolver {
  import opened ChessRules
  import Countdown

  /** A puzzle as the server hands it out. */
  datatype Puzzle = Puzzle(id: int, initialFen: string, moves: seq<string>, startingColor: string, motives: string)

  /** What `handleMove` gives back to the board: `true`, `false`, or an
   *  exception escaping from it. */
  datatype Reply = Accepted | Rejected | Escaped

  const IllegalMoveMessage: string := "That move is illegal."

  /** The `initialTime` the page gives its Timer. */
  const TimeBudget: nat := 120

  /** The page's React state. `replaying` says whether the solution-step
   *  interval is live.  `unmounted` says that an exception escaped one of the
   *  page's effects: with no error boundary above it, React removes the page,
   *  which clears its intervals, and the page takes no more events; the
   *  other fields keep the last committed state. */
  datatype Session = Session(
    puzzles: seq<Puzzle>,
    currentIndex: nat,
    currentPuzzle: Option<Puzzle>,
    game: Board,
    isSolved: bool,
    isFailed: bool,
    moveIndex: nat,
    showSolution: bool,
    replayIndex: nat,
    replaying: bool,
    errorMessage: string,
    animateError: bool,
    unmounted: bool)

  /** The solution of the puzzle on the board (none before one is loaded). */
  function Moves(s: Session): seq<string>
  {
    if s.currentPuzzle.Some? then s.currentPuzzle.value.moves else []
  }

  /** What every transition keeps: the indexes stay within the solution and
   *  the puzzle list, and the attempt is solved exactly when a non-empty
   *  solution has been played to its end. */
  predicate SessionValid(s: Session)
  {
    && (|s.puzzles| > 0 ==> s.currentIndex < |s.puzzles|)
    && s.moveIndex <= |Moves(s)|
    && s.replayIndex <= |Moves(s)|
    && (s.isSolved <==> 0 < s.moveIndex == |Moves(s)|)
    && (s.replaying ==> s.showSolution && s.currentPuzzle.Some?)
  }

  /** An attempt is never solved and failed at once. */
  predicate Exclusive(s: Session)
  {
    !(s.isSolved && s.isFailed)
  }

  /** The part of the state a move attempt never touches. */
  predicate SameSetup(s: Session, r: Session)
  {
    && r.puzzles == s.puzzles && r.currentIndex == s.currentIndex && r.currentPuzzle == s.currentPuzzle
    && r.showSolution == s.showSolution && r.replayIndex == s.replayIndex && r.replaying == s.replaying
  }

  /** The board that shows the puzzle with its first `k` solution moves
   *  played: `new Chess(initial_fen)` then `moves.slice(0, k).forEach(move)`. */
  function ReplayBoard(rules: Rules, p: Puzzle, k: nat): (r: Option<Board>)
    requires k <= |p.moves|
    ensures k == 0 ==> r == rules.load(p.initialFen)
    ensures r.Some? ==> rules.load(p.initialFen).Some?
  {
    match rules.load(p.initialFen)
    case None => None
    case Some(b) =>
      assert p.moves[..0] == [];
      PlayAll(rules, b, p.moves[..k])
  }

  /** Consecutive replay frames differ by exactly one solution move. */
  lemma ReplayBoardStep(rules: Rules, p: Puzzle, k: nat)
    requires k < |p.moves|
    ensures ReplayBoard(rules, p, k + 1) == Then(rules, ReplayBoard(rules, p, k), p.moves[k])
  {
    match rules.load(p.initialFen)
    case None =>
    case Some(b) => PlayAllStep(rules, b, p.moves, k);
  }

  /** An exception escapes an effect: React removes the page and clears its
   *  intervals. */
  function TornDown(s: Session): Session
  {
    s.(unmounted := true, replaying := false)
  }

  /** The effect on `[replayIndex, currentPuzzle]`: the board is rebuilt
   *  from the puzzle's start with the first `replayIndex` solution moves.
   *  When the library throws on the way (a rejected FEN, or a solution move
   *  it cannot play), the exception escapes the effect and the page is torn
   *  down with the board it had. */
  function ReplayEffect(rules: Rules, s: Session): (r: Session)
    requires s.replayIndex <= |Moves(s)|
    ensures r == s.(game := r.game, unmounted := r.unmounted, replaying := r.replaying)
    ensures var frame := if s.currentPuzzle.Some? then ReplayBoard(rules, s.currentPuzzle.value, s.replayIndex) else None;
      && (s.currentPuzzle.None? ==> r == s)
      && (frame.Some? ==> r.game == frame.value && r.unmounted == s.unmounted && r.replaying == s.replaying)
      && (s.currentPuzzle.Some? && frame.None? ==> r.game == s.game && r.unmounted && !r.replaying)
  {
    match s.currentPuzzle
    case None => s
    case Some(p) =>
      match ReplayBoard(rules, p, s.replayIndex)
      case None => TornDown(s)
      case Some(b) => s.(game := b)
  }

  /** No attempt under way: not solved, not failed, no move played, no
   *  solution shown and no error. */
  predicate Cleared(r: Session)
  {
    && !r.isSolved && !r.isFailed && r.moveIndex == 0
    && !r.showSolution && r.replayIndex == 0 && !r.replaying
    && r.errorMessage == "" && !r.animateError
  }

  /** The state `loadPuzzle` leaves behind for puzzle `p` opened on `b`. */
  predicate FreshAttempt(r: Session, p: Puzzle, b: Board)
  {
    r.currentPuzzle == Some(p) && r.game == b && Cleared(r)
  }

  /** `loadPuzzle(index)`, run by the effect on `[puzzles, currentIndex]`,
   *  and the replay effect it sets off.  When the puzzle's FEN is rejected
   *  `new Chess` throws before any state is set, the exception escapes the
   *  effect and the page is torn down. */
  function Loaded(rules: Rules, s: Session, index: nat): (r: Session)
    requires index < |s.puzzles|
    ensures r.puzzles == s.puzzles && r.currentIndex == s.currentIndex
    ensures rules.load(s.puzzles[index].initialFen).None? ==>
      r.unmounted && !r.replaying && r == s.(unmounted := r.unmounted, replaying := r.replaying)
    ensures rules.load(s.puzzles[index].initialFen).Some? ==>
      && FreshAttempt(r, s.puzzles[index], rules.load(s.puzzles[index].initialFen).value)
      && r.unmounted == s.unmounted
    ensures SessionValid(s) ==> SessionValid(r)
    ensures Exclusive(s) ==> Exclusive(r)
  {
    var p := s.puzzles[index];
    match rules.load(p.initialFen)
    case None => TornDown(s)
    case Some(b) =>
      var loaded := s.(game := b, currentPuzzle := Some(p), isSolved := false, isFailed := false,
                       moveIndex := 0, showSolution := false, replayIndex := 0, replaying := false,
                       errorMessage := "", animateError := false);
      assert p.moves[..0] == [];
      ReplayEffect(rules, loaded)
  }

  /** The page's first state: the fetched list, index 0, the start position
   *  on the board, and the first puzzle loaded when the list is not empty;
   *  a first puzzle whose FEN is rejected tears the page down. */
  function Mounted(rules: Rules, fetched: seq<Puzzle>, start: Board): (r: Session)
    ensures SessionValid(r) && Exclusive(r)
    ensures r.puzzles == fetched && r.currentIndex == 0
    ensures r.unmounted <==> |fetched| > 0 && rules.load(fetched[0].initialFen).None?
    ensures |fetched| == 0 || r.unmounted ==> r.currentPuzzle.None? && r.game == start && Cleared(r)
    ensures |fetched| > 0 && rules.load(fetched[0].initialFen).Some? ==>
      FreshAttempt(r, fetched[0], rules.load(fetched[0].initialFen).value)
  {
    var s := Session(fetched, 0, None, start, false, false, 0, false, 0, false, "", false, false);
    if |fetched| > 0 then Loaded(rules, s, 0) else s
  }

  /** The move the library makes of a drag with no promotion piece. */
  function Attempted(rules: Rules, s: Session, from: string, to: string): MoveOutcome
  {
    rules.move(s.game, MoveRequest(from, to, None))
  }

  /** A played move is the one the solution expects next: its origin and
   *  destination, with any promotion piece dropped. */
  predicate MatchesSolution(s: Session, played: MovePlayed): (m: bool)
    ensures m ==> s.moveIndex < |Moves(s)| && |Moves(s)[s.moveIndex]| == |played.from| + |played.to|
    ensures m && played.promotion.None? ==> Uci(played) == Moves(s)[s.moveIndex]
  {
    FromToAgreesWithUci(played);
    s.moveIndex < |Moves(s)| && FromTo(played) == Moves(s)[s.moveIndex]
  }

  /** The state after committing a correct move (and maybe the reply) on
   *  board `g` with `k` solution moves consumed. */
  function Commit(s: Session, g: Board, k: nat): (r: Session)
    ensures r == s.(game := g, moveIndex := k, isSolved := r.isSolved)
    ensures r.isSolved <==> s.isSolved || k >= |Moves(s)|
    ensures SessionValid(s) && !s.isSolved && s.moveIndex < k <= |Moves(s)| ==> SessionValid(r) && (r.isSolved <==> k == |Moves(s)|)
  {
    s.(game := g, moveIndex := k, isSolved := if k >= |Moves(s)| then true else s.isSolved)
  }

  /** A correct move is committed; when the solution goes on, its next move
   *  (the opponent's reply) is played too, unless the library refuses it
   *  (null) or throws (the exception escapes with the user's move on the
   *  board but not counted). */
  function CommitCorrect(rules: Rules, s: Session, after: Board): (r: (Session, Reply))
    requires !s.isSolved && !s.isFailed && s.currentPuzzle.Some? && s.moveIndex < |Moves(s)|
    ensures SameSetup(s, r.0) && r.0.errorMessage == s.errorMessage && r.0.animateError == s.animateError
    ensures !r.0.isFailed && r.1 != Rejected
    ensures r.1 == Escaped <==>
      s.moveIndex + 1 < |Moves(s)| && rules.moveText(after, Moves(s)[s.moveIndex + 1]).Threw?
    ensures r.1 == Accepted ==>
      && (r.0.moveIndex == s.moveIndex + 1 || r.0.moveIndex == s.moveIndex + 2)
      && (r.0.moveIndex == s.moveIndex + 2 <==>
            s.moveIndex + 1 < |Moves(s)| && rules.moveText(after, Moves(s)[s.moveIndex + 1]).Moved?)
      && (r.0.isSolved <==> r.0.moveIndex >= |Moves(s)|)
    ensures r.1 == Escaped ==> r.0.moveIndex == s.moveIndex && !r.0.isSolved
    // the board shows the user's move, and the reply when it was played
    ensures r.1 == Escaped ==> r.0.game == after
    ensures r.1 == Accepted ==>
      r.0.game == (if r.0.moveIndex == s.moveIndex + 2 then rules.moveText(after, Moves(s)[s.moveIndex + 1]).after
                   else after)
    ensures SessionValid(s) ==> SessionValid(r.0)
  {
    var moves := Moves(s);
    var k := s.moveIndex + 1;
    if k < |moves| then
      match rules.moveText(after, moves[k])
      case Threw => (s.(game := after), Escaped)
      case Refused => (Commit(s, after, k), Accepted)
      case Moved(reply, _) => (Commit(s, reply, k + 1), Accepted)
    else (Commit(s, after, k), Accepted)
  }

  /** `handleMove` once the library has played the user's move: the error
   *  is cleared, then the move is compared with the solution.  A match is
   *  committed with its reply; a mismatch fails the attempt and is not
   *  committed.  Without a puzzle the exception escapes. */
  function Judged(rules: Rules, s: Session, after: Board, played: MovePlayed): (r: (Session, Reply))
    requires !s.isSolved && !s.isFailed
    ensures SameSetup(s, r.0) && r.1 != Rejected
    ensures r.0.errorMessage == "" && !r.0.animateError && r.0.unmounted == s.unmounted
    ensures r.1 == Escaped <==>
      || s.currentPuzzle.None?
      || (&& MatchesSolution(s, played) && s.moveIndex + 1 < |Moves(s)|
          && rules.moveText(after, Moves(s)[s.moveIndex + 1]).Threw?)
    ensures r.1 == Accepted ==> (r.0.isFailed <==> !MatchesSolution(s, played))
    ensures r.1 == Accepted && r.0.isFailed ==>
      r.0 == s.(isFailed := true, errorMessage := "", animateError := false)
    ensures r.1 == Accepted && !r.0.isFailed ==>
      && (r.0.moveIndex == s.moveIndex + 1 || r.0.moveIndex == s.moveIndex + 2)
      && (r.0.moveIndex == s.moveIndex + 2 <==>
            s.moveIndex + 1 < |Moves(s)| && rules.moveText(after, Moves(s)[s.moveIndex + 1]).Moved?)
      && (r.0.isSolved <==> r.0.moveIndex >= |Moves(s)|)
      && r.0.game == (if r.0.moveIndex == s.moveIndex + 2 then rules.moveText(after, Moves(s)[s.moveIndex + 1]).after
                      else after)
    ensures r.1 == Escaped ==>
      r.0.moveIndex == s.moveIndex && r.0.isSolved == s.isSolved && r.0.isFailed == s.isFailed
    // without a puzzle the comparison throws before the board is set
    ensures r.1 == Escaped ==> r.0.game == (if s.currentPuzzle.None? then s.game else after)
    ensures SessionValid(s) ==> SessionValid(r.0)
    ensures Exclusive(r.0)
  {
    var cleared := s.(errorMessage := "", animateError := false);
    assert Moves(cleared) == Moves(s);
    if s.currentPuzzle.None? then (cleared, Escaped)
    else if MatchesSolution(s, played) then CommitCorrect(rules, cleared, after)
    else (cleared.(isFailed := true), Accepted)
  }

  /** `handleMove(sourceSquare, targetSquare)`. */
  function Attempt(rules: Rules, s: Session, from: string, to: string): (r: (Session, Reply))
    // a solved or failed attempt takes no more moves
    ensures s.isSolved || s.isFailed ==> r == (s, Rejected)
    // an illegal move (null or thrown) only shows the error
    ensures !(s.isSolved || s.isFailed) && !Attempted(rules, s, from, to).Moved? ==>
      r == (s.(errorMessage := IllegalMoveMessage, animateError := true), Rejected)
    ensures SameSetup(s, r.0)
    ensures r.1 != Rejected <==> !(s.isSolved || s.isFailed) && Attempted(rules, s, from, to).Moved?
    // past the legality check, the move is judged against the solution
    ensures r.1 != Rejected ==>
      var outcome := Attempted(rules, s, from, to);
      r == Judged(rules, s, outcome.after, outcome.played)
    ensures SessionValid(s) ==> SessionValid(r.0)
    ensures Exclusive(s) ==> Exclusive(r.0)
  {
    if s.isSolved || s.isFailed then (s, Rejected)
    else match Attempted(rules, s, from, to)
      case Refused => (s.(errorMessage := IllegalMoveMessage, animateError := true), Rejected)
      case Threw => (s.(errorMessage := IllegalMoveMessage, animateError := true), Rejected)
      case Moved(after, played) => Judged(rules, s, after, played)
  }

  /** `handleTimeUp`. */
  function TimedOut(s: Session): (r: Session)
    ensures r.isFailed && r == s.(isFailed := true)
    // the page's invariants survive, and failing an unsolved attempt leaves it not solved
    ensures SessionValid(s) ==> SessionValid(r)
    ensures Exclusive(s) && !s.isSolved ==> Exclusive(r)
  {
    s.(isFailed := true)
  }

  /** `(prev + 1) % puzzles.length`: the next index, back to the first
   *  after the last. */
  function Successor(i: nat, n: nat): (j: nat)
    requires i < n
    ensures j < n
    ensures j == 0 <==> i + 1 == n
    ensures j != 0 ==> j == i + 1
  {
    (i + 1) % n
  }

  /** `handleNextPuzzle`: the index moves on, wrapping after the last puzzle,
   *  and the puzzle at the new index is loaded.  With a single puzzle the
   *  index does not change, React skips the update, and nothing is reloaded. */
  function Advanced(rules: Rules, s: Session): (r: Session)
    requires SessionValid(s) && |s.puzzles| > 0
    ensures r.currentIndex == Successor(s.currentIndex, |s.puzzles|)
    ensures r.currentIndex == s.currentIndex ==> r == s
    ensures r.currentIndex != s.currentIndex ==> r == Loaded(rules, s.(currentIndex := r.currentIndex), r.currentIndex)
    ensures SessionValid(r)
    ensures Exclusive(s) ==> Exclusive(r)
  {
    var next := Successor(s.currentIndex, |s.puzzles|);
    if next == s.currentIndex then s
    else Loaded(rules, s.(currentIndex := next), next)
  }

  /** `handleShowSolution` and the effects it sets off: the replay restarts at
   *  0; the step interval starts when `showSolution` turns true (its effect
   *  depends on `[showSolution, currentPuzzle]` only), and the board is
   *  rebuilt if the replay index actually changed.  Nothing else changes,
   *  unless rebuilding the board throws and tears the page down. */
  function SolutionShown(rules: Rules, s: Session): (r: Session)
    requires SessionValid(s)
    ensures r == s.(showSolution := true, replayIndex := 0, replaying := r.replaying, game := r.game,
                    unmounted := r.unmounted)
    // the first frame is the puzzle's start, which the library may reject
    ensures var torn := s.replayIndex != 0 && s.currentPuzzle.Some? && rules.load(s.currentPuzzle.value.initialFen).None?;
      && (torn ==> r.unmounted && !r.replaying && r.game == s.game)
      && (!torn ==> r.unmounted == s.unmounted)
      && (!torn && s.showSolution ==> r.replaying == s.replaying)
      && (!torn && !s.showSolution ==> (r.replaying <==> s.currentPuzzle.Some?))
    ensures s.replayIndex == 0 ==> r.game == s.game
    ensures s.replayIndex != 0 && s.currentPuzzle.Some? && rules.load(s.currentPuzzle.value.initialFen).Some? ==>
      r.game == rules.load(s.currentPuzzle.value.initialFen).value
    ensures SessionValid(r)
  {
    var replaying := if s.showSolution then s.replaying else s.currentPuzzle.Some?;
    var started := s.(showSolution := true, replayIndex := 0, replaying := replaying);
    if s.replayIndex != 0 then
      assert started.currentPuzzle.Some? ==> started.currentPuzzle.value.moves[..0] == [];
      ReplayEffect(rules, started)
    else started
  }

  /** One firing of the solution-step interval: the replay index goes up by
   *  one and the board follows it; past the last move the interval stops.
   *  A step the library cannot play tears the page down, which stops it too. */
  function ReplayStepped(rules: Rules, s: Session): (r: Session)
    requires SessionValid(s)
    ensures SessionValid(r)
    ensures !s.replaying ==> r == s
    ensures s.replaying && s.replayIndex == |Moves(s)| ==> r == s.(replaying := false)
    ensures s.replaying && s.replayIndex < |Moves(s)| ==>
      && r.replayIndex == s.replayIndex + 1
      && (r.replaying <==> ReplayBoard(rules, s.currentPuzzle.value, s.replayIndex + 1).Some?)
      && r == ReplayEffect(rules, s.(replayIndex := s.replayIndex + 1))
    ensures r.replayIndex <= |Moves(r)| && Moves(r) == Moves(s)
  {
    if !s.replaying then s
    else if s.replayIndex + 1 > |Moves(s)| then s.(replaying := false)
    else ReplayEffect(rules, s.(replayIndex := s.replayIndex + 1))
  }

  function ReplaySteps(rules: Rules, s: Session, k: nat): (r: Session)
    requires SessionValid(s)
    ensures SessionValid(r)
    decreases k
  {
    if k == 0 then s else ReplaySteps(rules, ReplayStepped(rules, s), k - 1)
  }

  /** Once started, the replay walks through every solution move in order,
   *  showing after each step the puzzle's start with the moves so far played,
   *  and stops one firing after the last move.  This needs the library to
   *  play the first `k` steps; one it cannot play tears the page down. */
  lemma {:induction false} ReplayWalksTheSolution(rules: Rules, s: Session, k: nat)
    requires SessionValid(s) && s.replaying
    requires s.replayIndex + k <= |Moves(s)|
    requires ReplayBoard(rules, s.currentPuzzle.value, s.replayIndex + k).Some?
    ensures var r := ReplaySteps(rules, s, k);
      && r.replaying && r.replayIndex == s.replayIndex + k && r.currentPuzzle == s.currentPuzzle
      && r.unmounted == s.unmounted
      && (k > 0 ==> r.game == ReplayBoard(rules, s.currentPuzzle.value, r.replayIndex).value)
      && ReplaySteps(rules, s, k + 1) == (if r.replayIndex == |Moves(s)| then r.(replaying := false)
                                           else ReplayStepped(rules, r))
    decreases k
  {
    if k > 0 {
      var p := s.currentPuzzle.value;
      ReplayBoardEarlier(rules, p, s.replayIndex + 1, s.replayIndex + k);
      var s1 := ReplayStepped(rules, s);
      ReplayWalksTheSolution(rules, s1, k - 1);
      if k == 1 {
        assert ReplaySteps(rules, s1, 0) == s1;
      }
    }
  }

  /** A replay frame the library can build has every earlier frame too. */
  lemma ReplayBoardEarlier(rules: Rules, p: Puzzle, i: nat, j: nat)
    requires i <= j <= |p.moves|
    requires ReplayBoard(rules, p, j).Some?
    ensures ReplayBoard(rules, p, i).Some?
  {
    var b := rules.load(p.initialFen).value;
    if PlayAll(rules, b, p.moves[..i]).None? {
      PlayAllStaysFailed(rules, b, p.moves, i, j);
    }
  }

  /** The countdown as the page drives it: each firing happens with the timer
   *  running exactly while the attempt is neither solved nor failed, and
   *  time running out fails the attempt.  The Timer only exists once the
   *  puzzle list is non-empty, and no longer once the page is torn down. */
  function ClockTicked(s: Session, c: Countdown.Clock): (r: (Session, Countdown.Clock, bool))
    requires Countdown.ClockValid(c)
    ensures Countdown.ClockValid(r.1)
    ensures |s.puzzles| == 0 || s.unmounted ==> r == (s, c, false)
    ensures s.isSolved || s.isFailed ==> r.0 == s && !r.2 && r.1.timeLeft == c.timeLeft
    ensures r.2 ==> r.0 == TimedOut(s) && !s.isSolved && r.1.timeLeft == 0
    ensures !r.2 ==> r.0 == s
    ensures SessionValid(s) ==> SessionValid(r.0)
    ensures Exclusive(s) ==> Exclusive(r.0)
  {
    if |s.puzzles| == 0 || s.unmounted then (s, c, false)
    else
      var (c1, fired) := Countdown.Ticked(Countdown.Resynced(c, !s.isSolved && !s.isFailed));
      (if fired then TimedOut(s) else s, c1, fired)
  }

  function ClockRun(s: Session, c: Countdown.Clock, k: nat): (r: (Session, Countdown.Clock, nat))
    requires Countdown.ClockValid(c)
    ensures Countdown.ClockValid(r.1)
    decreases k
  {
    if k == 0 then (s, c, 0)
    else
      var (s1, c1, fired) := ClockTicked(s, c);
      var (s2, c2, n) := ClockRun(s1, c1, k - 1);
      (s2, c2, n + if fired then 1 else 0)
  }

  /** An attempt left alone fails when its seconds run out: after `k` firings
   *  it is failed exactly when `k` reaches the seconds that were left,
   *  `onTimeUp` has been called at most once, and nothing else changed. */
  lemma {:induction false} UnattendedAttemptTimesOut(s: Session, c: Countdown.Clock, k: nat)
    requires Countdown.ClockValid(c) && c.timeLeft >= 1
    requires |s.puzzles| > 0 && !s.unmounted && !s.isSolved && !s.isFailed
    ensures ClockRun(s, c, k).0 == (if k >= c.timeLeft then TimedOut(s) else s)
    ensures ClockRun(s, c, k).2 == (if k >= c.timeLeft then 1 else 0)
    ensures ClockRun(s, c, k).1.timeLeft == (if k >= c.timeLeft then 0 else c.timeLeft - k)
    decreases k
  {
    if k > 0 {
      var (s1, c1, fired) := ClockTicked(s, c);
      if c.timeLeft == 1 {
        ClockRunResolved(s1, c1, k - 1);
      } else {
        UnattendedAttemptTimesOut(s1, c1, k - 1);
      }
    }
  }

  /** A failed or solved attempt stops the countdown for good. */
  lemma {:induction false} ClockRunResolved(s: Session, c: Countdown.Clock, k: nat)
    requires Countdown.ClockValid(c)
    requires s.isSolved || s.isFailed
    ensures ClockRun(s, c, k).0 == s && ClockRun(s, c, k).2 == 0
    ensures ClockRun(s, c, k).1.timeLeft == c.timeLeft
    decreases k
  {
    if k > 0 {
      var (s1, c1, fired) := ClockTicked(s, c);
      ClockRunResolved(s1, c1, k - 1);
    }
  }

  // ---------------------------------------------------------------------------
  // The board follows the solution line

  /** The board shows the puzzle's start with exactly the consumed solution
   *  moves played. */
  ghost predicate OnSolutionLine(rules: Rules, s: Session)
  {
    s.currentPuzzle.Some? && s.moveIndex <= |Moves(s)|
    && ReplayBoard(rules, s.currentPuzzle.value, s.moveIndex) == Some(s.game)
  }

  /** A freshly loaded puzzle is on its solution line. */
  lemma LoadStartsOnSolutionLine(rules: Rules, s: Session, index: nat)
    requires index < |s.puzzles|
    requires rules.load(s.puzzles[index].initialFen).Some?
    ensures OnSolutionLine(rules, Loaded(rules, s, index))
  {
    assert s.puzzles[index].moves[..0] == [];
  }

  /** With a library that behaves consistently, every move attempt that does
   *  not end in an exception keeps the board on the solution line: a wrong
   *  move is never committed, and a correct move and its reply are exactly
   *  the next solution moves. */
  lemma MoveKeepsSolutionLine(rules: Rules, s: Session, from: string, to: string)
    requires Coherent(rules)
    requires SessionValid(s) && OnSolutionLine(rules, s)
    requires Attempt(rules, s, from, to).1 != Escaped
    ensures OnSolutionLine(rules, Attempt(rules, s, from, to).0)
  {
    var r := Attempt(rules, s, from, to);
    var outcome := Attempted(rules, s, from, to);
    if r.1 == Accepted && !r.0.isFailed {
      var p := s.currentPuzzle.value;
      var q := MoveRequest(from, to, None);
      assert rules.move(s.game, q) == outcome;
      var played := outcome.played;
      assert played.promotion.None?;
      FromToAgreesWithUci(played);
      assert PlayText(rules, s.game, p.moves[s.moveIndex]) == Some(outcome.after);
      ReplayBoardStep(rules, p, s.moveIndex);
      if s.moveIndex + 1 < |p.moves| {
        ReplayBoardStep(rules, p, s.moveIndex + 1);
      }
    }
  }

  /** A solved attempt shows exactly the position the full solution leads to. */
  lemma SolvedShowsFullSolution(rules: Rules, s: Session)
    requires SessionValid(s) && OnSolutionLine(rules, s) && s.isSolved
    ensures ReplayBoard(rules, s.currentPuzzle.value, |s.currentPuzzle.value.moves|) == Some(s.game)
  {
  }

  // ---------------------------------------------------------------------------
  // The page, updated in place

  /** `moves.slice(0, k).forEach((m) => replayChess.move(m))` on a fresh
   *  board; `None` when the library throws. */
  method Replay(rules: Rules, p: Puzzle, k: nat) returns (r: Option<Board>)
    requires k <= |p.moves|
    ensures r == ReplayBoard(rules, p, k)
  {
    var start := rules.load(p.initialFen);
    if start.None? {
      return None;
    }
    var board := start.value;
    var i := 0;
    while i < k
      invariant 0 <= i <= k
      invariant PlayAll(rules, start.value, p.moves[..i]) == Some(board)
    {
      PlayAllStep(rules, start.value, p.moves, i);
      match rules.moveText(board, p.moves[i]) {
        case Threw =>
          PlayAllStaysFailed(rules, start.value, p.moves, i + 1, k);
          return None;
        case Refused =>
        case Moved(after, _) =>
          board := after;
      }
      i := i + 1;
    }
    r := Some(board);
  }

  class Solver {
    const rules: Rules
    var puzzles: seq<Puzzle>
    var currentIndex: nat
    var currentPuzzle: Option<Puzzle>
    var game: Board
    var isSolved: bool
    var isFailed: bool
    var moveIndex: nat
    var showSolution: bool
    var replayIndex: nat
    var replaying: bool
    var errorMessage: string
    var animateError: bool
    var unmounted: bool
    /** The Timer child, remounted whenever `currentIndex` changes. */
    var timer: Countdown.Timer

    function State(): Session
      reads this
    {
      Session(puzzles, currentIndex, currentPuzzle, game, isSolved, isFailed, moveIndex,
              showSolution, replayIndex, replaying, errorMessage, animateError, unmounted)
    }

    ghost predicate Valid()
      reads this, timer
    {
      SessionValid(State()) && timer.Valid()
    }

    /** Mounting with the fetched puzzle list: `new Chess(initialFen)` must
     *  succeed for the page to exist at all. */
    constructor (rules: Rules, fetched: seq<Puzzle>)
      requires rules.load(StartFen).Some?
      ensures Valid() && fresh(timer)
      ensures this.rules == rules
      ensures State() == Mounted(rules, fetched, rules.load(StartFen).value)
      ensures timer.State() == Countdown.Mounted(TimeBudget, true)
    {
      this.rules := rules;
      puzzles := fetched;
      currentIndex := 0;
      currentPuzzle := None;
      game := rules.load(StartFen).value;
      isSolved, isFailed := false, false;
      moveIndex := 0;
      showSolution := false;
      replayIndex := 0;
      replaying := false;
      errorMessage := "";
      animateError := false;
      unmounted := false;
      timer := new Countdown.Timer(TimeBudget, true);
      new;
      if |fetched| > 0 {
        LoadPuzzle(0);
      }
    }

    /** The replay effect. */
    method RunReplayEffect()
      requires SessionValid(State())
      modifies this
      ensures timer == old(timer)
      ensures State() == ReplayEffect(rules, old(State()))
    {
      if currentPuzzle.Some? {
        var board := Replay(rules, currentPuzzle.value, replayIndex);
        if board.None? {
          unmounted, replaying := true, false;
          return;
        }
        game := board.value;
      }
    }

    /** `loadPuzzle(index)` and the replay effect. */
    method LoadPuzzle(index: nat)
      requires SessionValid(State()) && index < |puzzles|
      modifies this
      ensures timer == old(timer)
      ensures State() == Loaded(rules, old(State()), index)
    {
      var p := puzzles[index];
      var loaded := rules.load(p.initialFen);
      if loaded.None? {
        unmounted, replaying := true, false;
        return;
      }
      Reset(p, loaded.value);
      RunReplayEffect();
    }

    /** The setters of `loadPuzzle`: puzzle `p` on board `b`, no attempt
     *  under way. */
    method Reset(p: Puzzle, b: Board)
      modifies this
      ensures timer == old(timer)
      ensures puzzles == old(puzzles) && currentIndex == old(currentIndex) && unmounted == old(unmounted)
      ensures FreshAttempt(State(), p, b)
    {
      game := b;
      currentPuzzle := Some(p);
      isSolved, isFailed := false, false;
      moveIndex := 0;
      showSolution := false;
      replayIndex := 0;
      replaying := false;
      errorMessage := "";
      animateError := false;
    }

    /** `handleMove(sourceSquare, targetSquare)`; only a mounted page
     *  receives drags, clicks and timer firings. */
    method HandleMove(from: string, to: string) returns (reply: Reply)
      requires Valid() && !unmounted
      modifies this
      ensures Valid() && timer == old(timer)
      ensures (State(), reply) == Attempt(rules, old(State()), from, to)
    {
      if isSolved || isFailed {
        return Rejected;
      }
      var userMove := rules.move(game, MoveRequest(from, to, None));
      if !userMove.Moved? {
        errorMessage := IllegalMoveMessage;
        animateError := true;
        return Rejected;
      }
      reply := Respond(userMove.after, userMove.played);
    }

    /** The rest of `handleMove` once the library played the user's move. */
    method Respond(after: Board, played: MovePlayed) returns (reply: Reply)
      requires Valid() && !isSolved && !isFailed
      modifies this
      ensures Valid() && timer == old(timer)
      ensures (State(), reply) == Judged(rules, old(State()), after, played)
    {
      errorMessage := "";
      animateError := false;
      if currentPuzzle.None? {
        return Escaped;
      }
      var moves := currentPuzzle.value.moves;
      if moveIndex < |moves| && FromTo(played) == moves[moveIndex] {
        reply := CommitMove(after);
      } else {
        isFailed := true;
        reply := Accepted;
      }
    }

    /** The matching branch of `handleMove`. */
    method CommitMove(after: Board) returns (reply: Reply)
      requires Valid() && !isSolved && !isFailed && currentPuzzle.Some?
      requires moveIndex < |currentPuzzle.value.moves|
      modifies this
      ensures Valid() && timer == old(timer)
      ensures (State(), reply) == CommitCorrect(rules, old(State()), after)
    {
      var moves := currentPuzzle.value.moves;
      var newMoveIndex := moveIndex + 1;
      game := after;
      if newMoveIndex < |moves| {
        var computerMove := rules.moveText(game, moves[newMoveIndex]);
        if computerMove.Threw? {
          return Escaped;
        }
        if computerMove.Moved? {
          game := computerMove.after;
          newMoveIndex := newMoveIndex + 1;
        }
      }
      moveIndex := newMoveIndex;
      if newMoveIndex >= |moves| {
        isSolved := true;
      }
      reply := Accepted;
    }

    /** `handleTimeUp`. */
    method TimeUp()
      modifies this
      ensures timer == old(timer)
      ensures State() == TimedOut(old(State()))
    {
      isFailed := true;
    }

    /** One firing of the Timer's interval, with `isRunning` as the page
     *  passes it; the Timer calls `handleTimeUp` when it runs out. */
    method ClockTick() returns (fired: bool)
      requires Valid()
      modifies this, timer
      ensures Valid() && timer == old(timer)
      ensures (State(), timer.State(), fired) == ClockTicked(old(State()), old(timer.State()))
    {
      fired := false;
      if |puzzles| > 0 && !unmounted {
        timer.Resync(!isSolved && !isFailed);
        fired := timer.Tick();
        if fired {
          TimeUp();
        }
      }
    }

    /** `handleNextPuzzle`; the Timer is keyed by the index and so is
     *  remounted with a full budget when the index changes. */
    method NextPuzzle()
      requires Valid() && !unmounted && |puzzles| > 0
      modifies this
      ensures Valid()
      ensures State() == Advanced(rules, old(State()))
      ensures currentIndex == old(currentIndex) ==> timer == old(timer)
      ensures currentIndex != old(currentIndex) ==>
        fresh(timer) && timer.State() == Countdown.Mounted(TimeBudget, !isSolved && !isFailed)
    {
      var next := Successor(currentIndex, |puzzles|);
      if next == currentIndex {
        return;
      }
      currentIndex := next;
      LoadPuzzle(next);
      RemountTimer();
    }

    /** The Timer keyed by the index mounts afresh, running when the attempt
     *  is neither solved nor failed. */
    method RemountTimer()
      requires SessionValid(State())
      modifies this
      ensures Valid() && State() == old(State())
      ensures fresh(timer) && timer.State() == Countdown.Mounted(TimeBudget, !isSolved && !isFailed)
    {
      timer := new Countdown.Timer(TimeBudget, !isSolved && !isFailed);
    }

    /** `handleShowSolution` and the effects it sets off. */
    method ShowSolution()
      requires Valid() && !unmounted
      modifies this
      ensures Valid() && timer == old(timer)
      ensures State() == SolutionShown(rules, old(State()))
    {
      var changed := replayIndex != 0;
      if !showSolution {
        replaying := currentPuzzle.Some?;
      }
      showSolution := true;
      replayIndex := 0;
      if changed {
        RunReplayEffect();
      }
    }

    /** One firing of the solution-step interval. */
    method ReplayTick()
      requires Valid()
      modifies this
      ensures Valid() && timer == old(timer)
      ensures State() == ReplayStepped(rules, old(State()))
    {
      if replaying {
        var next := replayIndex + 1;
        if next > |currentPuzzle.value.moves| {
          replaying := false;
        } else {
          replayIndex := next;
          RunReplayEffect();
        }
      }
    }
  }
}

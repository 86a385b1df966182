/** The exercise page (the ChessTrainer component).
 *
 *  In free mode pieces are moved around at will.  In exercise mode the user
 *  starts an exercise from the position on the board (with the side to move
 *  rewritten to the chosen starting colour), plays the solution moves, which
 *  are recorded as identifiers, and finishes by saving it.  A saved exercise
 *  can be opened and stepped through position by position.
 *
 *  The pure functions are the transitions on `TrainerState`; the class
 *  `Trainer` performs them in place.
 */
module ChessTrainer {
  import opened ChessRules
  import ExerciseStore

  datatype Mode = Free | Exercise

  /** An opened exercise with the positions computed for it. */
  datatype Opened = Opened(exercise: ExerciseStore.Exercise, positions: seq<string>)

  /** What `handleFinishExercise` sends to the server. */
  datatype Draft = Draft(initialFen: string, moves: seq<string>, startingColor: string, motives: string)

  datatype TrainerState = TrainerState(
    game: Board,
    mode: Mode,
    motives: string,
    startingColor: string,
    creatingExercise: bool,
    currentExercise: Option<Opened>,
    currentMoveIndex: int,
    exerciseMoves: seq<string>,
    initialExerciseFen: string)

  /** The opened exercise has one position more than it has moves, and the
   *  index points at one of them; with nothing open the index is -1. */
  predicate Navigable(t: TrainerState)
  {
    match t.currentExercise
    case None => t.currentMoveIndex == -1
    case Some(o) => |o.positions| == |o.exercise.moves| + 1 && 0 <= t.currentMoveIndex < |o.positions|
  }

  /** The page as it mounts, on the start position: free mode, nothing open,
   *  nothing recorded, no motives, white to move in a new exercise. */
  function Initial(start: Board): (t: TrainerState)
    ensures Navigable(t) && !t.creatingExercise && t.exerciseMoves == []
    ensures t.mode == Free && t.currentExercise.None? && t.currentMoveIndex == -1 && t.game == start
    ensures t.motives == "" && t.startingColor == "white" && t.initialExerciseFen == StartFen
  {
    TrainerState(start, Free, "", "white", false, None, -1, [], StartFen)
  }

  // ---------------------------------------------------------------------------
  // Recording a move

  /** The promotion piece the page asks for: a queen when the dragged piece
   *  is a pawn (`wP`, `bP`), none otherwise. */
  function PromotionFor(piece: string): (p: Option<char>)
    ensures p.Some? <==> |piece| >= 2 && piece[1] == 'P'
    ensures p.Some? ==> p.value == 'q'
  {
    if |piece| >= 2 && piece[1] == 'P' then Some('q') else None
  }

  /** `onDrop(sourceSquare, targetSquare, piece)`. */
  function Dropped(rules: Rules, t: TrainerState, from: string, to: string, piece: string): (r: (TrainerState, bool))
    // nothing moves while an exercise is open
    ensures t.currentExercise.Some? ==> r == (t, false)
    ensures !r.1 ==> r.0 == t
    ensures r.0 == t.(game := r.0.game, exerciseMoves := r.0.exerciseMoves)
    // recording: a played move appends exactly its identifier, a refused one changes nothing
    ensures t.currentExercise.None? && t.mode == Exercise && t.creatingExercise ==>
      var outcome := rules.move(t.game, MoveRequest(from, to, PromotionFor(piece)));
      && (r.1 <==> outcome.Moved?)
      && (r.1 ==> r.0.exerciseMoves == t.exerciseMoves + [Uci(outcome.played)] && r.0.game == outcome.after)
    // outside free mode and recording, drops are refused
    ensures t.mode == Exercise && !t.creatingExercise ==> r == (t, false)
    ensures r.0.exerciseMoves != t.exerciseMoves ==> |r.0.exerciseMoves| == |t.exerciseMoves| + 1
  {
    if t.currentExercise.Some? then (t, false)
    else if t.mode == Free then (t.(game := rules.relocate(t.game, from, to, piece)), true)
    else if t.creatingExercise then
      match rules.move(t.game, MoveRequest(from, to, PromotionFor(piece)))
      case Moved(after, played) => (t.(exerciseMoves := t.exerciseMoves + [Uci(played)], game := after), true)
      case Refused => (t, false)
      case Threw => (t, false)
    else (t, false)
  }

  // ---------------------------------------------------------------------------
  // The side-to-move field of a FEN

  /** `s.split(' ')`: the pieces between single spaces, empty ones included. */
  function Split(s: string): (parts: seq<string>)
    ensures |parts| >= 1
    ensures forall i :: 0 <= i < |parts| ==> ' ' !in parts[i]
    decreases |s|
  {
    if |s| == 0 then [""]
    else
      var rest := Split(s[1..]);
      if s[0] == ' ' then [""] + rest
      else [[s[0]] + rest[0]] + rest[1..]
  }

  /** `parts.join(' ')`: the pieces in order with one space between each
   *  two. */
  function Join(parts: seq<string>): (s: string)
    requires |parts| >= 1
    ensures parts[0] <= s
    ensures |parts| > 1 ==> |s| > |parts[0]| && s[|parts[0]|] == ' '
    decreases |parts|
  {
    if |parts| == 1 then parts[0] else parts[0] + " " + Join(parts[1..])
  }

  /** Joining the pieces gives the string back. */
  lemma {:induction false} JoinSplit(s: string)
    ensures Join(Split(s)) == s
    decreases |s|
  {
    if |s| > 0 {
      var rest := Split(s[1..]);
      JoinSplit(s[1..]);
      if s[0] == ' ' {
        assert ([""] + rest)[1..] == rest;
        assert s == [s[0]] + s[1..];
      } else {
        var parts := [[s[0]] + rest[0]] + rest[1..];
        if |rest| == 1 {
          assert s == [s[0]] + s[1..];
        } else {
          assert parts[1..] == rest[1..];
          assert Join(rest) == rest[0] + " " + Join(rest[1..]);
          assert s == [s[0]] + s[1..];
        }
      }
    }
  }

  /** Splitting a join of space-free pieces gives the pieces back. */
  lemma {:induction false} SplitJoin(parts: seq<string>)
    requires |parts| >= 1
    requires forall i :: 0 <= i < |parts| ==> ' ' !in parts[i]
    ensures Split(Join(parts)) == parts
    decreases |parts|, |parts[0]|
  {
    var p0 := parts[0];
    if |p0| > 0 {
      var tail := [p0[1..]] + parts[1..];
      assert ' ' !in p0[1..] by {
        forall c | c in p0[1..] ensures c != ' ' {
          assert c in p0;
        }
      }
      assert forall i :: 0 <= i < |tail| ==> ' ' !in tail[i] by {
        forall i | 0 <= i < |tail| ensures ' ' !in tail[i] {
          if i > 0 {
            assert tail[i] == parts[i];
          }
        }
      }
      SplitJoin(tail);
      JoinFirstChar(parts);
      assert p0[0] in p0;
      SplitFirstChar(p0[0], Join(tail));
      assert [p0[0]] + p0[1..] == p0;
      assert parts == [p0] + parts[1..];
    } else if |parts| > 1 {
      SplitJoin(parts[1..]);
      assert Join(parts) == " " + Join(parts[1..]);
      assert Join(parts)[1..] == Join(parts[1..]);
      assert parts == [""] + parts[1..];
    }
  }

  /** Joining pieces whose first is not empty starts with that piece's first
   *  character, followed by the join with it removed. */
  lemma JoinFirstChar(parts: seq<string>)
    requires |parts| >= 1 && |parts[0]| > 0
    ensures Join(parts) == [parts[0][0]] + Join([parts[0][1..]] + parts[1..])
  {
    var tail := [parts[0][1..]] + parts[1..];
    assert tail[1..] == parts[1..];
    assert parts[0] == [parts[0][0]] + parts[0][1..];
  }

  /** Splitting a string that starts with a non-space character puts that
   *  character at the head of the first piece. */
  lemma SplitFirstChar(c: char, rest: string)
    requires c != ' '
    ensures Split([c] + rest) == [[c] + Split(rest)[0]] + Split(rest)[1..]
  {
    assert ([c] + rest)[1..] == rest;
  }

  /** `startingColor[0]`; an empty colour gives `undefined`, which `join`
   *  writes as nothing. */
  function TurnField(color: string): (f: string)
    ensures |f| <= 1 && (|f| == 0 <==> |color| == 0)
    ensures |color| > 0 ==> f[0] == color[0]
  {
    if |color| == 0 then "" else [color[0]]
  }

  /** `fenParts[1] = startingColor[0]` on the split FEN, joined back; a FEN
   *  with a single field gets the turn appended as a second one. */
  function WithTurn(fen: string, color: string): (r: string)
    ensures ' ' !in TurnField(color) ==>
      var before, after := Split(fen), Split(r);
      && |after| == (if |before| >= 2 then |before| else 2)
      && after[1] == TurnField(color)
      && (forall i :: 0 <= i < |before| && i != 1 ==> after[i] == before[i])
  {
    var parts := Split(fen);
    var updated := if |parts| >= 2 then parts[1 := TurnField(color)] else parts + [TurnField(color)];
    var r := Join(updated);
    if ' ' !in TurnField(color) then
      SplitJoin(updated);
      r
    else r
  }

  /** Rewriting the turn changes nothing else: writing back the field that
   *  was there restores the FEN. */
  lemma WithTurnRestores(fen: string, color: string)
    requires |Split(fen)| >= 2 && Split(fen)[1] == TurnField(color)
    ensures WithTurn(fen, color) == fen
  {
    var parts := Split(fen);
    assert parts[1 := TurnField(color)] == parts;
    JoinSplit(fen);
  }

  /** `handleNewExercise`: the board's FEN with the turn rewritten becomes
   *  the exercise's start; a FEN the library rejects leaves the page as it
   *  was (the alert is not modelled). */
  function ExerciseStarted(rules: Rules, t: TrainerState): (r: TrainerState)
    ensures var fen := WithTurn(rules.fen(t.game), t.startingColor);
      && (rules.load(fen).None? ==> r == t)
      && (rules.load(fen).Some? ==>
            && r.creatingExercise && r.exerciseMoves == [] && r.initialExerciseFen == fen
            && r.game == rules.load(fen).value
            && r.currentExercise == t.currentExercise && r.currentMoveIndex == t.currentMoveIndex
            && r.mode == t.mode && r.motives == t.motives && r.startingColor == t.startingColor)
    ensures Navigable(t) ==> Navigable(r)
  {
    var fen := WithTurn(rules.fen(t.game), t.startingColor);
    match rules.load(fen)
    case None => t
    case Some(b) => t.(game := b, initialExerciseFen := fen, exerciseMoves := [], creatingExercise := true)
  }

  /** The moves recorded so far, played from the exercise's start, lead to
   *  the board on screen. */
  ghost predicate Recorded(rules: Rules, t: TrainerState)
  {
    t.creatingExercise ==>
      rules.load(t.initialExerciseFen).Some?
      && PlayAll(rules, rules.load(t.initialExerciseFen).value, t.exerciseMoves) == Some(t.game)
  }

  lemma NewExerciseStartsRecording(rules: Rules, t: TrainerState)
    requires rules.load(WithTurn(rules.fen(t.game), t.startingColor)).Some?
    ensures Recorded(rules, ExerciseStarted(rules, t))
  {
    var b := rules.load(WithTurn(rules.fen(t.game), t.startingColor)).value;
    assert PlayAll(rules, b, []) == Some(b);
  }

  /** With a library that behaves consistently, every recorded move replays
   *  to the position it produced, so the saved exercise replays to what the
   *  author saw.  This holds for drops in exercise mode; the mode buttons
   *  stay available while recording, and a free-mode drop moves pieces
   *  without recording anything. */
  lemma RecordingReplays(rules: Rules, t: TrainerState, from: string, to: string, piece: string)
    requires Coherent(rules)
    requires Recorded(rules, t) && t.mode == Exercise
    ensures Recorded(rules, Dropped(rules, t, from, to, piece).0)
  {
    var r := Dropped(rules, t, from, to, piece);
    if r.1 {
      var q := MoveRequest(from, to, PromotionFor(piece));
      var outcome := rules.move(t.game, q);
      var start := rules.load(t.initialExerciseFen).value;
      assert PlayText(rules, t.game, Uci(outcome.played)) == Some(outcome.after);
      PlayAllAppend(rules, start, t.exerciseMoves, [Uci(outcome.played)]);
      assert [Uci(outcome.played)][1..] == [];
      assert PlayAll(rules, outcome.after, []) == Some(outcome.after);
    }
  }

  /** What `handleFinishExercise` sends. */
  function Submitted(t: TrainerState): (d: Draft)
    ensures d.initialFen == t.initialExerciseFen && d.moves == t.exerciseMoves
    ensures d.startingColor == t.startingColor && d.motives == t.motives
  {
    Draft(t.initialExerciseFen, t.exerciseMoves, t.startingColor, t.motives)
  }

  /** `handleFinishExercise` once the save settled: authoring is reset only
   *  when it succeeded. */
  function Finish(t: TrainerState, saved: bool, start: Board): (r: TrainerState)
    ensures !saved ==> r == t
    ensures saved ==>
      && !r.creatingExercise && r.mode == Free && r.motives == "" && r.exerciseMoves == []
      && r.initialExerciseFen == StartFen && r.game == start
      && r.currentExercise == t.currentExercise && r.currentMoveIndex == t.currentMoveIndex
      && r.startingColor == t.startingColor
    ensures Navigable(t) ==> Navigable(r)
  {
    if saved then
      t.(creatingExercise := false, mode := Free, motives := "", exerciseMoves := [],
         initialExerciseFen := StartFen, game := start)
    else t
  }

  // ---------------------------------------------------------------------------
  // Opening and stepping through an exercise

  /** The FEN after each prefix of `ms` played from `b`: the list
   *  `handleLoadExercise` builds; `None` when the library throws. */
  function Trail(rules: Rules, b: Board, ms: seq<string>): (r: Option<seq<string>>)
    ensures r.Some? ==> |r.value| == |ms| + 1 && r.value[0] == rules.fen(b)
    ensures r.Some? && ms != [] ==> PlayText(rules, b, ms[0]).Some?
    decreases |ms|
  {
    if ms == [] then Some([rules.fen(b)])
    else match PlayText(rules, b, ms[0])
      case None => None
      case Some(next) =>
        match Trail(rules, next, ms[1..])
        case None => None
        case Some(rest) => Some([rules.fen(b)] + rest)
  }

  /** The trail exists exactly when every move can be played; it has one
   *  entry more than there are moves, and entry `i` is the FEN after the
   *  first `i` moves. */
  lemma {:induction false} TrailShape(rules: Rules, b: Board, ms: seq<string>)
    ensures Trail(rules, b, ms).Some? <==> PlayAll(rules, b, ms).Some?
    ensures Trail(rules, b, ms).Some? ==>
      && |Trail(rules, b, ms).value| == |ms| + 1
      && forall i :: 0 <= i <= |ms| ==>
           PlayAll(rules, b, ms[..i]).Some? &&
           Trail(rules, b, ms).value[i] == rules.fen(PlayAll(rules, b, ms[..i]).value)
    decreases |ms|
  {
    if ms != [] {
      match PlayText(rules, b, ms[0])
      case None =>
      case Some(next) =>
        TrailShape(rules, next, ms[1..]);
        if Trail(rules, b, ms).Some? {
          var ps := Trail(rules, b, ms).value;
          forall i | 0 <= i <= |ms|
            ensures PlayAll(rules, b, ms[..i]).Some? && ps[i] == rules.fen(PlayAll(rules, b, ms[..i]).value)
          {
            if i == 0 {
              assert ms[..0] == [];
            } else {
              assert ms[..i][0] == ms[0];
              assert ms[..i][1..] == ms[1..][..i - 1];
            }
          }
        }
    }
  }

  /** The positions of an exercise, or `None` when building them throws. */
  function Positions(rules: Rules, e: ExerciseStore.Exercise): (r: Option<seq<string>>)
    ensures r.Some? ==>
      && rules.load(e.initialFen).Some?
      && |r.value| == |e.moves| + 1 && r.value[0] == rules.fen(rules.load(e.initialFen).value)
  {
    match rules.load(e.initialFen)
    case None => None
    case Some(b) => Trail(rules, b, e.moves)
  }

  /** The loop of `handleLoadExercise`: push the FEN after every move. */
  method BuildPositions(rules: Rules, e: ExerciseStore.Exercise) returns (r: Option<seq<string>>)
    ensures r == Positions(rules, e)
    ensures r.Some? ==> |r.value| == |e.moves| + 1 && r.value[0] == rules.fen(rules.load(e.initialFen).value)
  {
    var loaded := rules.load(e.initialFen);
    if loaded.None? {
      return None;
    }
    var start := loaded.value;
    TrailShape(rules, start, e.moves);
    var game := start;
    var positions := [rules.fen(game)];
    var i := 0;
    while i < |e.moves|
      invariant 0 <= i <= |e.moves|
      invariant PlayAll(rules, start, e.moves[..i]) == Some(game)
      invariant |positions| == i + 1
      invariant forall j :: 0 <= j <= i ==>
        PlayAll(rules, start, e.moves[..j]).Some? &&
        positions[j] == rules.fen(PlayAll(rules, start, e.moves[..j]).value)
    {
      PlayAllStep(rules, start, e.moves, i);
      match rules.moveText(game, e.moves[i]) {
        case Threw =>
          PlayAllStaysFailed(rules, start, e.moves, i + 1, |e.moves|);
          assert e.moves[..|e.moves|] == e.moves;
          assert Trail(rules, start, e.moves).None?;
          return None;
        case Refused =>
        case Moved(after, _) =>
          game := after;
      }
      positions := positions + [rules.fen(game)];
      i := i + 1;
    }
    assert e.moves[..|e.moves|] == e.moves;
    var trail := Trail(rules, start, e.moves).value;
    assert |trail| == |positions|;
    assert forall j :: 0 <= j < |positions| ==> positions[j] == trail[j];
    assert positions == trail;
    r := Some(positions);
  }

  /** `handleLoadExercise(exercise)`: the exercise opens at index 0.  When
   *  building the positions throws nothing changes; when only re-reading the
   *  first position throws, the exercise is open but the board is unchanged. */
  function ExerciseOpened(rules: Rules, t: TrainerState, e: ExerciseStore.Exercise): (r: TrainerState)
    ensures Positions(rules, e).None? ==> r == t
    ensures Positions(rules, e).Some? ==>
      && r.currentExercise == Some(Opened(e, Positions(rules, e).value)) && r.currentMoveIndex == 0
      && (rules.load(Positions(rules, e).value[0]).Some? ==> r.game == rules.load(Positions(rules, e).value[0]).value)
      && (rules.load(Positions(rules, e).value[0]).None? ==> r.game == t.game)
    // authoring and the mode are untouched
    ensures r == t.(currentExercise := r.currentExercise, currentMoveIndex := r.currentMoveIndex, game := r.game)
    ensures Navigable(t) ==> Navigable(r)
  {
    match Positions(rules, e)
    case None => t
    case Some(ps) =>
      TrailShape(rules, rules.load(e.initialFen).value, e.moves);
      var shown := t.(currentExercise := Some(Opened(e, ps)), currentMoveIndex := 0);
      match rules.load(ps[0])
      case None => shown
      case Some(b) => shown.(game := b)
  }

  /** Re-reading position `i` of the open exercise; the index is already
   *  set when the library throws. */
  function ShowPosition(rules: Rules, t: TrainerState, i: int): (r: TrainerState)
    requires t.currentExercise.Some? && 0 <= i < |t.currentExercise.value.positions|
    ensures r.currentMoveIndex == i && r == t.(currentMoveIndex := i, game := r.game)
    ensures rules.load(t.currentExercise.value.positions[i]).Some? ==>
      r.game == rules.load(t.currentExercise.value.positions[i]).value
    ensures rules.load(t.currentExercise.value.positions[i]).None? ==> r.game == t.game
  {
    var stepped := t.(currentMoveIndex := i);
    match rules.load(t.currentExercise.value.positions[i])
    case None => stepped
    case Some(b) => stepped.(game := b)
  }

  /** `handlePreviousMove`: one position back, unless at the first; with
   *  nothing open the index is -1 and nothing happens. */
  function Previous(rules: Rules, t: TrainerState): (r: TrainerState)
    requires Navigable(t)
    ensures Navigable(r) && r.currentExercise == t.currentExercise
    ensures t.currentMoveIndex > 0 ==> r == ShowPosition(rules, t, t.currentMoveIndex - 1)
    ensures t.currentMoveIndex <= 0 ==> r == t
  {
    if t.currentMoveIndex > 0 then ShowPosition(rules, t, t.currentMoveIndex - 1) else t
  }

  /** `handleNextMove`: one position on, unless at the last. */
  function Next(rules: Rules, t: TrainerState): (r: TrainerState)
    requires Navigable(t) && t.currentExercise.Some?
    ensures Navigable(r) && r.currentExercise == t.currentExercise
    ensures t.currentMoveIndex < |t.currentExercise.value.positions| - 1 ==>
      r == ShowPosition(rules, t, t.currentMoveIndex + 1)
    ensures t.currentMoveIndex == |t.currentExercise.value.positions| - 1 ==> r == t
  {
    if t.currentMoveIndex < |t.currentExercise.value.positions| - 1 then
      ShowPosition(rules, t, t.currentMoveIndex + 1)
    else t
  }

  /** Stepping on and back returns to the same position. */
  lemma NextThenPrevious(rules: Rules, t: TrainerState)
    requires Navigable(t) && t.currentExercise.Some?
    requires t.currentMoveIndex < |t.currentExercise.value.positions| - 1
    ensures Previous(rules, Next(rules, t)).currentMoveIndex == t.currentMoveIndex
    ensures Previous(rules, Next(rules, t)) == ShowPosition(rules, Next(rules, t), t.currentMoveIndex)
  {
  }

  function Steps(rules: Rules, t: TrainerState, k: nat): (r: TrainerState)
    requires Navigable(t) && t.currentExercise.Some?
    ensures Navigable(r) && r.currentExercise == t.currentExercise
    decreases k
  {
    if k == 0 then t else Steps(rules, Next(rules, t), k - 1)
  }

  /** Pressing "next" `k` times from the first position stops at the last
   *  one: the index is `k` capped at the number of moves. */
  lemma {:induction false} StepsStopAtTheEnd(rules: Rules, t: TrainerState, k: nat)
    requires Navigable(t) && t.currentExercise.Some?
    ensures var last := |t.currentExercise.value.positions| - 1;
      Steps(rules, t, k).currentMoveIndex ==
        if t.currentMoveIndex + k <= last then t.currentMoveIndex + k else last
    decreases k
  {
    if k > 0 {
      StepsStopAtTheEnd(rules, Next(rules, t), k - 1);
    }
  }

  /** `handleCloseExercise`. */
  function Close(t: TrainerState, start: Board): (r: TrainerState)
    ensures r.currentExercise.None? && r.currentMoveIndex == -1 && r.game == start
    ensures r == t.(currentExercise := None, currentMoveIndex := -1, game := start)
    ensures Navigable(r)
  {
    t.(currentExercise := None, currentMoveIndex := -1, game := start)
  }

  // ---------------------------------------------------------------------------
  // The page, updated in place

  class Trainer {
    const rules: Rules
    /** The start position `resetGameHandler` goes back to. */
    const start: Board
    /** The page's exercise list (the useExercises hook). */
    const store: ExerciseStore.ExerciseList
    var game: Board
    var mode: Mode
    var motives: string
    var startingColor: string
    var creatingExercise: bool
    var currentExercise: Option<Opened>
    var currentMoveIndex: int
    var exerciseMoves: seq<string>
    var initialExerciseFen: string

    function State(): TrainerState
      reads this
    {
      TrainerState(game, mode, motives, startingColor, creatingExercise, currentExercise,
                   currentMoveIndex, exerciseMoves, initialExerciseFen)
    }

    ghost predicate Valid()
      reads this
    {
      Navigable(State()) && rules.load(StartFen) == Some(start)
    }

    constructor (rules: Rules)
      requires rules.load(StartFen).Some?
      ensures Valid() && fresh(store) && store.exercises == []
      ensures this.rules == rules
      ensures State() == Initial(rules.load(StartFen).value)
    {
      this.rules := rules;
      start := rules.load(StartFen).value;
      store := new ExerciseStore.ExerciseList();
      game := rules.load(StartFen).value;
      mode := Free;
      motives := "";
      startingColor := "white";
      creatingExercise := false;
      currentExercise := None;
      currentMoveIndex := -1;
      exerciseMoves := [];
      initialExerciseFen := StartFen;
    }

    /** `onDrop(sourceSquare, targetSquare, piece)`. */
    method Drop(from: string, to: string, piece: string) returns (accepted: bool)
      requires Valid()
      modifies this
      ensures Valid()
      ensures (State(), accepted) == Dropped(rules, old(State()), from, to, piece)
    {
      if currentExercise.Some? {
        return false;
      }
      if mode == Free {
        game := rules.relocate(game, from, to, piece);
        return true;
      }
      if mode == Exercise && creatingExercise {
        var moveResult := rules.move(game, MoveRequest(from, to, PromotionFor(piece)));
        if !moveResult.Moved? {
          return false;
        }
        exerciseMoves := exerciseMoves + [Uci(moveResult.played)];
        game := moveResult.after;
        return true;
      }
      return false;
    }

    /** `handleNewExercise`. */
    method NewExercise()
      requires Valid()
      modifies this
      ensures Valid()
      ensures State() == ExerciseStarted(rules, old(State()))
    {
      var fenParts := Split(rules.fen(game));
      if |fenParts| >= 2 {
        fenParts := fenParts[1 := TurnField(startingColor)];
      } else {
        fenParts := fenParts + [TurnField(startingColor)];
      }
      var initialFen := Join(fenParts);
      var newGame := rules.load(initialFen);
      if newGame.None? {
        return;
      }
      game := newGame.value;
      initialExerciseFen := initialFen;
      exerciseMoves := [];
      creatingExercise := true;
    }

    /** `handleFinishExercise`: `created` is the record the save produced,
     *  `None` when it failed. */
    method FinishExercise(created: Option<ExerciseStore.Exercise>) returns (sent: Draft)
      requires Valid()
      modifies this, store
      ensures Valid()
      ensures sent == Submitted(old(State()))
      ensures State() == Finish(old(State()), created.Some?, start)
      ensures created.Some? ==> store.exercises == old(store.exercises) + [created.value]
      ensures created.None? ==> store.exercises == old(store.exercises)
    {
      sent := Draft(initialExerciseFen, exerciseMoves, startingColor, motives);
      var saved := store.Add(created);
      if saved {
        creatingExercise := false;
        mode := Free;
        motives := "";
        exerciseMoves := [];
        initialExerciseFen := StartFen;
        game := start;
      }
    }

    /** `handleLoadExercise(exercise)`. */
    method LoadExercise(e: ExerciseStore.Exercise)
      requires Valid()
      modifies this
      ensures Valid()
      ensures State() == ExerciseOpened(rules, old(State()), e)
    {
      var positions := BuildPositions(rules, e);
      if positions.None? {
        return;
      }
      currentExercise := Some(Opened(e, positions.value));
      currentMoveIndex := 0;
      var first := rules.load(positions.value[0]);
      if first.Some? {
        game := first.value;
      }
    }

    /** `handlePreviousMove`. */
    method PreviousMove()
      requires Valid()
      modifies this
      ensures Valid()
      ensures State() == Previous(rules, old(State()))
    {
      if currentMoveIndex > 0 {
        var newIndex := currentMoveIndex - 1;
        currentMoveIndex := newIndex;
        var b := rules.load(currentExercise.value.positions[newIndex]);
        if b.Some? {
          game := b.value;
        }
      }
    }

    /** `handleNextMove`. */
    method NextMove()
      requires Valid() && currentExercise.Some?
      modifies this
      ensures Valid()
      ensures State() == Next(rules, old(State()))
    {
      if currentMoveIndex < |currentExercise.value.positions| - 1 {
        var newIndex := currentMoveIndex + 1;
        currentMoveIndex := newIndex;
        var b := rules.load(currentExercise.value.positions[newIndex]);
        if b.Some? {
          game := b.value;
        }
      }
    }

    /** The "Free Mode" and "Exercise Mode" buttons. */
    method SetMode(m: Mode)
      requires Valid()
      modifies this
      ensures Valid()
      ensures State() == old(State()).(mode := m)
    {
      mode := m;
    }

    /** The exercise form's motives field. */
    method SetMotives(text: string)
      requires Valid()
      modifies this
      ensures Valid()
      ensures State() == old(State()).(motives := text)
    {
      motives := text;
    }

    /** The exercise form's starting-colour choice. */
    method SetStartingColor(color: string)
      requires Valid()
      modifies this
      ensures Valid()
      ensures State() == old(State()).(startingColor := color)
    {
      startingColor := color;
    }

    /** `handleCloseExercise`. */
    method CloseExercise()
      requires Valid()
      modifies this
      ensures Valid()
      ensures State() == Close(old(State()), start)
    {
      currentExercise := None;
      currentMoveIndex := -1;
      game := start;
    }
  }
}

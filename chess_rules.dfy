/** The chess rules the trainer delegates to.
 *
 *  In the browser every rule (legality, move execution, FEN text) comes from
 *  the chess.js library.  The model never reimplements a rule: a `Rules` value
 *  bundles the library calls the components make, as total functions over an
 *  abstract `Board`.  Every lemma that needs the library to behave sensibly
 *  says so through a hypothesis on the `Rules` value (`Coherent`).
 *
 *  Also here: the move identifier the trainer stores and compares (origin
 *  square, destination square, optional promotion letter), and the
 *  "play these moves one after the other" fold that both the puzzle replay
 *  and the exercise navigator run.
 */
module ChessRules {

  datatype Option<+T> = None | Some(value: T)

  /** A position as the rules library holds it (a `Chess` object). */
  type Board(==, !new)

  /** The argument of `game.move({from, to, promotion})`. */
  datatype MoveRequest = MoveRequest(from: string, to: string, promotion: Option<char>)

  /** The move object the library returns for a move it played. */
  datatype MovePlayed = MovePlayed(from: string, to: string, promotion: Option<char>)

  /** What a call to `game.move(...)` does: it plays the move, returns null
   *  (older library versions) or throws (current versions) for a move it
   *  refuses. */
  datatype MoveOutcome = Moved(after: Board, played: MovePlayed) | Refused | Threw

  /** The library calls the trainer makes.
   *  - `load(fen)`: `new Chess(fen)`; `None` when the constructor throws.
   *  - `fen(b)`: `b.fen()`.
   *  - `move(b, q)`: `b.move({from, to, promotion})`.
   *  - `moveText(b, m)`: `b.move(m)` with a move written as text.
   *  - `relocate(b, from, to, piece)`: free-mode `remove(from)` then `put(piece, to)`. */
  datatype Rules = Rules(
    load: string -> Option<Board>,
    fen: Board -> string,
    move: (Board, MoveRequest) -> MoveOutcome,
    moveText: (Board, string) -> MoveOutcome,
    relocate: (Board, string, string, string) -> Board)

  /** The standard starting position both pages open with. */
  const StartFen: string := "rnbqkbnr/pppppppp/8/8/8/8/PPPPPPPP/RNBQKBNR w KQkq - 0 1"

  // ---------------------------------------------------------------------------
  // Move identifiers

  function PromotionSuffix(p: Option<char>): string
  {
    match p
    case None => ""
    case Some(c) => [c]
  }

  /** The identifier recorded while authoring an exercise:
   *  origin square, destination square, then the promotion letter if any. */
  function Uci(m: MovePlayed): (s: string)
    ensures |s| == |m.from| + |m.to| + (if m.promotion.Some? then 1 else 0)
    ensures s[..|m.from|] == m.from && s[|m.from|..|m.from| + |m.to|] == m.to
    ensures m.promotion.Some? ==> s[|s| - 1] == m.promotion.value
  {
    m.from + m.to + PromotionSuffix(m.promotion)
  }

  /** The identifier a puzzle attempt compares with the solution:
   *  origin and destination square only, the promotion is dropped. */
  function FromTo(m: MovePlayed): (s: string)
    ensures |s| == |m.from| + |m.to|
    ensures s[..|m.from|] == m.from && s[|m.from|..] == m.to
  {
    m.from + m.to
  }

  predicate SquareShaped(m: MovePlayed)
  {
    |m.from| == 2 && |m.to| == 2
  }

  /** Reads an identifier back: two characters of origin, two of destination,
   *  and an optional fifth character naming the promotion piece. */
  function DecodeUci(s: string): (r: Option<MovePlayed>)
    ensures r.Some? <==> |s| == 4 || |s| == 5
    ensures r.Some? ==> SquareShaped(r.value)
  {
    if |s| == 4 then Some(MovePlayed(s[..2], s[2..4], None))
    else if |s| == 5 then Some(MovePlayed(s[..2], s[2..4], Some(s[4])))
    else None
  }

  /** Every move the library reports with two-character squares is recorded
   *  as a 4- or 5-character identifier that reads back as the same move. */
  lemma UciRoundTrip(m: MovePlayed)
    requires SquareShaped(m)
    ensures |Uci(m)| == 4 || |Uci(m)| == 5
    ensures DecodeUci(Uci(m)) == Some(m)
  {
    var s := Uci(m);
    assert s[..2] == m.from && s[2..4] == m.to;
  }

  /** A puzzle compares only origin and destination, so a solution entry that
   *  carries a promotion letter can never equal what an attempt produces. */
  lemma PromotionEntryNeverMatches(m: MovePlayed, expected: string)
    requires SquareShaped(m)
    requires |expected| == 5
    ensures FromTo(m) != expected
  {
  }

  /** The two identifiers agree exactly on moves without a promotion. */
  lemma FromToAgreesWithUci(m: MovePlayed)
    ensures FromTo(m) == Uci(m) <==> m.promotion.None?
  {
    if m.promotion.Some? {
      assert |Uci(m)| == |FromTo(m)| + 1;
    }
  }

  // ---------------------------------------------------------------------------
  // Playing a list of moves

  /** One `forEach` step: the move is played, ignored when the library
   *  returns null, and ends the walk (`None`) when the library throws. */
  function PlayText(rules: Rules, b: Board, m: string): (r: Option<Board>)
    ensures r.None? <==> rules.moveText(b, m).Threw?
    ensures rules.moveText(b, m).Refused? ==> r == Some(b)
    ensures rules.moveText(b, m).Moved? ==> r == Some(rules.moveText(b, m).after)
  {
    match rules.moveText(b, m)
    case Moved(after, _) => Some(after)
    case Refused => Some(b)
    case Threw => None
  }

  function Then(rules: Rules, ob: Option<Board>, m: string): Option<Board>
  {
    match ob
    case None => None
    case Some(b) => PlayText(rules, b, m)
  }

  /** The board after playing `ms` in order from `b`. */
  function PlayAll(rules: Rules, b: Board, ms: seq<string>): (r: Option<Board>)
    ensures ms == [] ==> r == Some(b)
    ensures |ms| == 1 ==> r == PlayText(rules, b, ms[0])
    // a walk that gets to its end never threw on its first move
    ensures r.Some? && ms != [] ==> PlayText(rules, b, ms[0]).Some?
    decreases |ms|
  {
    if ms == [] then Some(b)
    else match PlayText(rules, b, ms[0])
      case None => None
      case Some(next) => PlayAll(rules, next, ms[1..])
  }

  function ThenAll(rules: Rules, ob: Option<Board>, ms: seq<string>): Option<Board>
  {
    match ob
    case None => None
    case Some(b) => PlayAll(rules, b, ms)
  }

  /** Playing `xs + ys` is playing `xs`, then `ys` from where `xs` ended. */
  lemma {:induction false} PlayAllAppend(rules: Rules, b: Board, xs: seq<string>, ys: seq<string>)
    ensures PlayAll(rules, b, xs + ys) == ThenAll(rules, PlayAll(rules, b, xs), ys)
    decreases |xs|
  {
    if xs == [] {
      assert xs + ys == ys;
    } else {
      assert (xs + ys)[0] == xs[0];
      assert (xs + ys)[1..] == xs[1..] + ys;
      match PlayText(rules, b, xs[0])
      case None =>
      case Some(next) => PlayAllAppend(rules, next, xs[1..], ys);
    }
  }

  /** Each further move extends the previous result by exactly one step. */
  lemma PlayAllStep(rules: Rules, b: Board, ms: seq<string>, k: nat)
    requires k < |ms|
    ensures PlayAll(rules, b, ms[..k + 1]) == Then(rules, PlayAll(rules, b, ms[..k]), ms[k])
  {
    assert ms[..k + 1] == ms[..k] + [ms[k]];
    PlayAllAppend(rules, b, ms[..k], [ms[k]]);
    match PlayAll(rules, b, ms[..k])
    case None =>
    case Some(mid) =>
      assert [ms[k]][1..] == [];
      match PlayText(rules, mid, ms[k])
      case None =>
      case Some(next) => assert PlayAll(rules, next, []) == Some(next);
  }

  /** Once a step throws, every longer prefix throws too. */
  lemma {:induction false} PlayAllStaysFailed(rules: Rules, b: Board, ms: seq<string>, i: nat, j: nat)
    requires i <= j <= |ms|
    requires PlayAll(rules, b, ms[..i]) == None
    ensures PlayAll(rules, b, ms[..j]) == None
    decreases j - i
  {
    if i < j {
      PlayAllStep(rules, b, ms, i);
      PlayAllStaysFailed(rules, b, ms, i + 1, j);
    }
  }

  // ---------------------------------------------------------------------------
  // What the components rely on the library for

  /** The library behaves consistently:
   *  - a move it played, written back as its identifier, is the same move;
   *  - a move requested without a promotion piece is played without one. */
  ghost predicate Coherent(rules: Rules)
  {
    && (forall b: Board, q: MoveRequest {:trigger rules.move(b, q)} ::
          rules.move(b, q).Moved? ==>
            PlayText(rules, b, Uci(rules.move(b, q).played)) == Some(rules.move(b, q).after))
    && (forall b: Board, q: MoveRequest {:trigger rules.move(b, q)} ::
          rules.move(b, q).Moved? && q.promotion.None? ==> rules.move(b, q).played.promotion.None?)
  }
}

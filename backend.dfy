/** The server's exercise endpoints (the Flask application).
 *
 *  Creating an exercise replays its move list on a python-chess board: the
 *  side to move is first set from `starting_color`, then each UCI move is
 *  parsed, checked against the legal moves of the current board and pushed.
 *  The first move that fails rejects the whole request and nothing is stored;
 *  any exception (missing key, bad FEN, malformed UCI) is a 400 as well.
 *  Deleting an unknown id answers 404 and leaves the table alone.
 *
 *  python-chess is an oracle (`PyRules`); the table is a sequence of rows in
 *  rowid order.
 */
module Backend {
  import opened ChessRules

  /** A `chess.Board` and a `chess.Move`; the model never looks inside them. */
  type PyBoard(==, !new)
  type PyMove(==, !new)

  datatype Color = White | Black

  /** The python-chess calls the endpoint makes.
   *  - `parse(fen)`: `chess.Board(fen)`; `None` when it raises.
   *  - `withTurn(b, c)`: the board after `board.turn = c`.
   *  - `fromUci(s)`: `chess.Move.from_uci(s)`; `None` when it raises.
   *  - `isLegal(b, m)`: `m in b.legal_moves`.
   *  - `push(b, m)`: the board after `b.push(m)`. */
  datatype PyRules = PyRules(
    parse: string -> Option<PyBoard>,
    withTurn: (PyBoard, Color) -> PyBoard,
    fromUci: string -> Option<PyMove>,
    isLegal: (PyBoard, PyMove) -> bool,
    push: (PyBoard, PyMove) -> PyBoard)

  /** The JSON body of a create request; a field is `None` when its key is
   *  missing. */
  datatype Body = Body(
    initialFen: Option<string>,
    moves: Option<seq<string>>,
    startingColor: Option<string>,
    motives: Option<string>)

  /** Why a request was answered 400. */
  datatype Failure =
    | MissingKey(key: string)   // KeyError
    | BadFen                    // chess.Board raised
    | MalformedMove(uci: string) // chess.Move.from_uci raised
    | InvalidMove(uci: string)  // 'Invalid move: <uci>'

  datatype Response = Created(id: int) | BadRequest(failure: Failure)

  datatype Row = Row(
    id: int,
    initialFen: string,
    moves: seq<string>,
    startingColor: string,
    motives: string,
    createdAt: string)

  /** `chess.WHITE if starting_color == 'white' else chess.BLACK`. */
  function TurnFor(startingColor: string): (c: Color)
    ensures c == White <==> startingColor == "white"
  {
    if startingColor == "white" then White else Black
  }

  // ---------------------------------------------------------------------------
  // Validating the move list

  /** The outcome of walking a move list: every move passed (and the board
   *  reached), or the index of the first move that was malformed or not
   *  legal. */
  datatype Check = Passed(board: PyBoard) | Malformed(index: nat) | Illegal(index: nat)

  function Shift(c: Check, offset: nat): Check
  {
    match c
    case Passed(b) => c
    case Malformed(i) => Malformed(i + offset)
    case Illegal(i) => Illegal(i + offset)
  }

  /** The loop `for move_uci in data['moves']`, as a fold. */
  function CheckMoves(py: PyRules, b: PyBoard, moves: seq<string>): (c: Check)
    ensures c.Malformed? ==> c.index < |moves| && py.fromUci(moves[c.index]).None?
    ensures c.Illegal? ==> c.index < |moves| && py.fromUci(moves[c.index]).Some?
    decreases |moves|
  {
    if moves == [] then Passed(b)
    else match py.fromUci(moves[0])
      case None => Malformed(0)
      case Some(m) =>
        if !py.isLegal(b, m) then Illegal(0)
        else Shift(CheckMoves(py, py.push(b, m), moves[1..]), 1)
  }

  /** One more move: the walk of `moves + [u]` is the walk of `moves`
   *  continued by the check of `u` on the board it reached. */
  function CheckOne(py: PyRules, c: Check, u: string, at: nat): Check
  {
    match c
    case Passed(b) =>
      (match py.fromUci(u)
       case None => Malformed(at)
       case Some(m) => if py.isLegal(b, m) then Passed(py.push(b, m)) else Illegal(at))
    case _ => c
  }

  lemma {:induction false} CheckSnoc(py: PyRules, b: PyBoard, moves: seq<string>, u: string)
    ensures CheckMoves(py, b, moves + [u]) == CheckOne(py, CheckMoves(py, b, moves), u, |moves|)
    decreases |moves|
  {
    if moves == [] {
      assert [] + [u] == [u];
      assert [u][1..] == [];
    } else {
      assert (moves + [u])[0] == moves[0];
      assert (moves + [u])[1..] == moves[1..] + [u];
      match py.fromUci(moves[0])
      case None =>
      case Some(m) =>
        if py.isLegal(b, m) {
          CheckSnoc(py, py.push(b, m), moves[1..], u);
        }
    }
  }

  /** A rejection names the first failing move: every earlier move passed,
   *  the named move is what failed on the board they reached, and what
   *  follows it is never examined. */
  lemma {:induction false} CheckStopsAtFirstFailure(py: PyRules, b: PyBoard, moves: seq<string>, rest: seq<string>)
    requires !CheckMoves(py, b, moves).Passed?
    ensures CheckMoves(py, b, moves).index < |moves|
    ensures CheckMoves(py, b, moves[..CheckMoves(py, b, moves).index]).Passed?
    ensures CheckOne(py, CheckMoves(py, b, moves[..CheckMoves(py, b, moves).index]),
                     moves[CheckMoves(py, b, moves).index], CheckMoves(py, b, moves).index)
            == CheckMoves(py, b, moves)
    ensures CheckMoves(py, b, moves + rest) == CheckMoves(py, b, moves)
    decreases |moves|
  {
    assert moves != [];
    assert (moves + rest)[0] == moves[0];
    assert (moves + rest)[1..] == moves[1..] + rest;
    match py.fromUci(moves[0])
    case None =>
      assert moves[..0] == [];
    case Some(m) =>
      if py.isLegal(b, m) {
        var tail := moves[1..];
        CheckStopsAtFirstFailure(py, py.push(b, m), tail, rest);
        var inner := CheckMoves(py, py.push(b, m), tail);
        var i := inner.index + 1;
        assert CheckMoves(py, b, moves).index == i;
        assert moves[..i][0] == moves[0];
        assert moves[..i][1..] == tail[..i - 1];
        assert CheckMoves(py, b, moves[..i]) == CheckMoves(py, py.push(b, m), tail[..i - 1]);
        assert moves[i] == tail[i - 1];
      } else {
        assert moves[..0] == [];
      }
  }

  /** The loop of the create endpoint: moves are parsed, checked and pushed
   *  in order, and the first failure ends the walk. */
  method ValidateMoves(py: PyRules, start: PyBoard, moves: seq<string>) returns (c: Check)
    ensures c == CheckMoves(py, start, moves)
  {
    var board := start;
    var i := 0;
    while i < |moves|
      invariant 0 <= i <= |moves|
      invariant CheckMoves(py, start, moves[..i]) == Passed(board)
    {
      CheckSnoc(py, start, moves[..i], moves[i]);
      assert moves[..i] + [moves[i]] == moves[..i + 1];
      var move := py.fromUci(moves[i]);
      if move.None? {
        CheckStopsAtFirstFailure(py, start, moves[..i + 1], moves[i + 1..]);
        assert moves[..i + 1] + moves[i + 1..] == moves;
        return Malformed(i);
      }
      if !py.isLegal(board, move.value) {
        CheckStopsAtFirstFailure(py, start, moves[..i + 1], moves[i + 1..]);
        assert moves[..i + 1] + moves[i + 1..] == moves;
        return Illegal(i);
      }
      board := py.push(board, move.value);
      i := i + 1;
    }
    assert moves[..i] == moves;
    c := Passed(board);
  }

  // ---------------------------------------------------------------------------
  // The table

  /** Rows in rowid order, each id used once. */
  ghost predicate Ascending(rows: seq<Row>)
  {
    forall i, j :: 0 <= i < j < |rows| ==> rows[i].id < rows[j].id
  }

  function Ids(rows: seq<Row>): set<int>
  {
    set r | r in rows :: r.id
  }

  /** The rowid SQLite gives a new row: one more than the largest in use,
   *  1 in an empty table. */
  function NextId(rows: seq<Row>): (id: int)
    requires Ascending(rows)
    ensures forall r :: r in rows ==> r.id < id
  {
    if rows == [] then 1 else rows[|rows| - 1].id + 1
  }

  /** Everything the create endpoint needs before it stores: all four keys,
   *  a FEN python-chess accepts, and a move list that passes. */
  ghost predicate Storable(py: PyRules, body: Body)
  {
    && body.initialFen.Some? && body.startingColor.Some? && body.moves.Some? && body.motives.Some?
    && py.parse(body.initialFen.value).Some?
    && CheckMoves(py, py.withTurn(py.parse(body.initialFen.value).value, TurnFor(body.startingColor.value)),
                  body.moves.value).Passed?
  }

  /** The POST branch of `handle_exercises`: the response and the table
   *  afterwards.  `now` is the `created_at` default. */
  function Post(py: PyRules, rows: seq<Row>, body: Body, now: string): (r: (Response, seq<Row>))
    requires Ascending(rows)
    ensures r.0.Created? <==> Storable(py, body)
    ensures r.0.BadRequest? ==> r.1 == rows
    ensures r.0.Created? ==>
      && r.0.id !in Ids(rows)
      && r.1 == rows + [Row(r.0.id, body.initialFen.value, body.moves.value, body.startingColor.value,
                            body.motives.value, now)]
      && Ascending(r.1)
    ensures r.0.BadRequest? && r.0.failure.InvalidMove? ==>
      body.moves.Some? && r.0.failure.uci in body.moves.value
  {
    if body.initialFen.None? then (BadRequest(MissingKey("initial_fen")), rows)
    else match py.parse(body.initialFen.value)
      case None => (BadRequest(BadFen), rows)
      case Some(b0) =>
        if body.startingColor.None? then (BadRequest(MissingKey("starting_color")), rows)
        else
          var board := py.withTurn(b0, TurnFor(body.startingColor.value));
          if body.moves.None? then (BadRequest(MissingKey("moves")), rows)
          else
            var moves := body.moves.value;
            match CheckMoves(py, board, moves)
            case Malformed(i) => (BadRequest(MalformedMove(moves[i])), rows)
            case Illegal(i) => (BadRequest(InvalidMove(moves[i])), rows)
            case Passed(_) =>
              if body.motives.None? then (BadRequest(MissingKey("motives")), rows)
              else
                var id := NextId(rows);
                (Created(id), rows + [Row(id, body.initialFen.value, moves, body.startingColor.value,
                                          body.motives.value, now)])
  }

  /** A rejected move list is rejected whatever comes after the failing
   *  move, and the move the answer names is the first one that is not legal
   *  on the board the earlier moves reached. */
  lemma RejectionNamesFirstFailure(py: PyRules, rows: seq<Row>, body: Body, now: string, rest: seq<string>)
    requires Ascending(rows)
    requires Post(py, rows, body, now).0.BadRequest?
    requires Post(py, rows, body, now).0.failure.InvalidMove?
    ensures body.initialFen.Some? && body.startingColor.Some? && body.moves.Some?
    ensures py.parse(body.initialFen.value).Some?
    ensures var board := py.withTurn(py.parse(body.initialFen.value).value, TurnFor(body.startingColor.value));
            var c := CheckMoves(py, board, body.moves.value);
            && c.Illegal?
            && body.moves.value[c.index] == Post(py, rows, body, now).0.failure.uci
            && CheckMoves(py, board, body.moves.value[..c.index]).Passed?
            && py.fromUci(body.moves.value[c.index]).Some?
            && !py.isLegal(CheckMoves(py, board, body.moves.value[..c.index]).board,
                           py.fromUci(body.moves.value[c.index]).value)
    ensures Post(py, rows, body.(moves := Some(body.moves.value + rest)), now) == Post(py, rows, body, now)
  {
    var board := py.withTurn(py.parse(body.initialFen.value).value, TurnFor(body.startingColor.value));
    var moves := body.moves.value;
    CheckStopsAtFirstFailure(py, board, moves, rest);
    var c := CheckMoves(py, board, moves);
    assert (moves + rest)[c.index] == moves[c.index];
  }

  /** Where the row with `id` sits, if any. */
  function IndexOf(rows: seq<Row>, id: int): (r: Option<nat>)
    ensures r.Some? ==> r.value < |rows| && rows[r.value].id == id
    ensures r.None? <==> id !in Ids(rows)
    decreases |rows|
  {
    if rows == [] then None
    else if rows[0].id == id then Some(0)
    else match IndexOf(rows[1..], id)
      case None =>
        assert Ids(rows) == {rows[0].id} + Ids(rows[1..]) by {
          assert forall r :: r in rows <==> r == rows[0] || r in rows[1..];
        }
        None
      case Some(i) => Some(i + 1)
  }

  /** Taking out the row at `i` keeps the others in rowid order. */
  lemma RemoveAtAscending(rows: seq<Row>, i: nat)
    requires Ascending(rows) && i < |rows|
    ensures Ascending(rows[..i] + rows[i + 1..])
  {
    var rest := rows[..i] + rows[i + 1..];
    forall a, b | 0 <= a < b < |rest|
      ensures rest[a].id < rest[b].id
    {
      var a' := if a < i then a else a + 1;
      var b' := if b < i then b else b + 1;
      assert rest[a] == rows[a'] && rest[b] == rows[b'];
    }
  }

  /** Taking out the row at `i` keeps every other row. */
  lemma RemoveAtMembers(rows: seq<Row>, i: nat)
    requires Ascending(rows) && i < |rows|
    ensures forall x :: x in rows[..i] + rows[i + 1..] <==> x in rows && x.id != rows[i].id
  {
    var rest := rows[..i] + rows[i + 1..];
    forall x
      ensures x in rest <==> x in rows && x.id != rows[i].id
    {
      if x in rest {
        var k :| 0 <= k < |rest| && rest[k] == x;
        var k' := if k < i then k else k + 1;
        assert rows[k'] == x;
        assert k' < i || k' > i;
      }
      if x in rows && x.id != rows[i].id {
        var k :| 0 <= k < |rows| && rows[k] == x;
        var k' := if k < i then k else k - 1;
        assert rest[k'] == x;
      }
    }
  }

  /** Taking out the row at `i` removes exactly its id. */
  lemma RemoveAtIds(rows: seq<Row>, i: nat)
    requires Ascending(rows) && i < |rows|
    ensures Ids(rows[..i] + rows[i + 1..]) == Ids(rows) - {rows[i].id}
  {
    var rest := rows[..i] + rows[i + 1..];
    RemoveAtMembers(rows, i);
    forall x | x in Ids(rest)
      ensures x in Ids(rows) - {rows[i].id}
    {
      var r :| r in rest && r.id == x;
      assert r in rows;
    }
    forall x | x in Ids(rows) - {rows[i].id}
      ensures x in Ids(rest)
    {
      var r :| r in rows && r.id == x;
      assert r in rest;
    }
  }

  /** `delete_exercise`: the status code and the table afterwards. */
  function Delete(rows: seq<Row>, id: int): (r: (int, seq<Row>))
    requires Ascending(rows)
    ensures r.0 == 404 <==> id !in Ids(rows)
    ensures r.0 == 404 || r.0 == 200
    ensures r.0 == 404 ==> r.1 == rows
    ensures r.0 == 200 ==> |r.1| == |rows| - 1 && Ids(r.1) == Ids(rows) - {id}
    ensures r.0 == 200 ==> forall x :: x in r.1 <==> x in rows && x.id != id
    ensures Ascending(r.1)
  {
    match IndexOf(rows, id)
    case None => (404, rows)
    case Some(i) =>
      RemoveAtAscending(rows, i);
      RemoveAtIds(rows, i);
      RemoveAtMembers(rows, i);
      (200, rows[..i] + rows[i + 1..])
  }

  /** The exercise table, changed in place by the two endpoints. */
  class ExerciseTable {
    var rows: seq<Row>

    ghost predicate Valid()
      reads this
    {
      Ascending(rows)
    }

    /** `db.create_all()` on a fresh database. */
    constructor ()
      ensures Valid() && rows == []
    {
      rows := [];
    }

    method HandlePost(py: PyRules, body: Body, now: string) returns (response: Response)
      requires Valid()
      modifies this
      ensures Valid()
      ensures (response, rows) == Post(py, old(rows), body, now)
    {
      if body.initialFen.None? {
        return BadRequest(MissingKey("initial_fen"));
      }
      var parsed := py.parse(body.initialFen.value);
      if parsed.None? {
        return BadRequest(BadFen);
      }
      if body.startingColor.None? {
        return BadRequest(MissingKey("starting_color"));
      }
      var board := py.withTurn(parsed.value, TurnFor(body.startingColor.value));
      if body.moves.None? {
        return BadRequest(MissingKey("moves"));
      }
      var check := ValidateMoves(py, board, body.moves.value);
      match check {
        case Malformed(i) =>
          return BadRequest(MalformedMove(body.moves.value[i]));
        case Illegal(i) =>
          return BadRequest(InvalidMove(body.moves.value[i]));
        case Passed(_) =>
      }
      if body.motives.None? {
        return BadRequest(MissingKey("motives"));
      }
      var id := NextId(rows);
      rows := rows + [Row(id, body.initialFen.value, body.moves.value, body.startingColor.value,
                          body.motives.value, now)];
      response := Created(id);
    }

    method HandleDelete(id: int) returns (status: int)
      requires Valid()
      modifies this
      ensures Valid()
      ensures (status, rows) == Delete(old(rows), id)
    {
      var found := IndexOf(rows, id);
      if found.None? {
        return 404;
      }
      var i := found.value;
      rows := rows[..i] + rows[i + 1..];
      status := 200;
    }
  }
}

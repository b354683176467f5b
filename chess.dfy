/**
 * The board mirror: python-chess's `Board` reduced to what both bridges read
 * from it. A board is its starting setup plus the moves pushed since (the
 * library's `move_stack`); the side to move flips with every move. Whether
 * `set_fen` accepts a FEN and whether `push_uci` accepts a move are the chess
 * rules, which the model takes as given functions (a `Rules` value).
 */
module Chess {

  import opened Base
  import opened Text

  datatype Side = White | Black

  function Other(s: Side): Side {
    if s == White then Black else White
  }

  /** Where a board starts: the standard initial position, or a FEN accepted by `set_fen`. */
  datatype Setup = StartPos | FromFen(fen: String)

  datatype Board = Board(setup: Setup, moves: seq<String>)

  /** The chess rules: which FENs `set_fen` accepts, which moves `push_uci` accepts on a board. */
  datatype Rules = Rules(fenOk: String -> bool, legal: (Board, String) -> bool)

  /** `chess.Board()` and `board.reset()`: the initial position, no moves. */
  const Initial: Board := Board(StartPos, [])

  /** Side to move of the setup: a FEN whose second field is "b" has Black to move. */
  function StartTurn(setup: Setup): Side {
    match setup
    case StartPos => White
    case FromFen(fen) =>
      var fields := Split(fen);
      if |fields| > 1 && fields[1] == "b" then Black else White
  }

  /** `board.turn`. */
  function Turn(b: Board): Side {
    if |b.moves| % 2 == 0 then StartTurn(b.setup) else Other(StartTurn(b.setup))
  }

  /** `board.push(move)`: appends the move without consulting the rules. */
  function Push(b: Board, m: String): Board {
    Board(b.setup, b.moves + [m])
  }

  /** Every push hands the move to the other side. */
  lemma PushFlipsTurn(b: Board, m: String)
    ensures Turn(Push(b, m)) == Other(Turn(b))
  {
  }

  /** The full-move number of the setup: the FEN's sixth field, at least 1, 1 if absent. */
  function FullMove(setup: Setup): nat {
    match setup
    case StartPos => 1
    case FromFen(fen) =>
      var fields := Split(fen);
      if |fields| > 5 then
        match ParseInt(fields[5])
        case Some(n) => if n >= 1 then n else 1
        case None => 1
      else 1
  }

  /** python-chess's `ply()` of the setup: `2 * (fullmove_number - 1)`, plus one when Black is to move. */
  function StartPly(setup: Setup): nat {
    2 * (FullMove(setup) - 1) + (if StartTurn(setup) == Black then 1 else 0)
  }

  /** `board.ply()`: every pushed move adds one half-move. */
  function Ply(b: Board): nat {
    StartPly(b.setup) + |b.moves|
  }

  /** `board.peek()` where the move stack is non-empty. */
  function LastMove(b: Board): Option<String> {
    if b.moves == [] then None else Some(b.moves[|b.moves| - 1])
  }

  /** `board.set_fen(fen)`: the FEN's position with an empty move stack; None where it raises. */
  function SetFen(rules: Rules, fen: String): Option<Board> {
    if rules.fenOk(fen) then Some(Board(FromFen(fen), [])) else None
  }

  /** The board after a sequence of `push_uci` calls, and whether one of them raised. */
  datatype Replay = Replay(board: Board, failed: bool)

  /** `for m in ms: board.push_uci(m)`, stopped by the first move the rules reject. */
  function PushAll(rules: Rules, b: Board, ms: seq<String>): Replay
    decreases |ms|
  {
    if ms == [] then Replay(b, false)
    else if rules.legal(b, ms[0]) then PushAll(rules, Push(b, ms[0]), ms[1..])
    else Replay(b, true)
  }

  /** The `push_uci` loop itself, on a local board. */
  method ReplayMoves(rules: Rules, b: Board, ms: seq<String>) returns (r: Replay)
    ensures r == PushAll(rules, b, ms)
  {
    var board := b;
    var i := 0;
    while i < |ms|
      invariant i <= |ms|
      invariant PushAll(rules, board, ms[i..]) == PushAll(rules, b, ms)
    {
      if !rules.legal(board, ms[i]) {
        return Replay(board, true);
      }
      assert ms[i..][1..] == ms[i + 1..];
      board := Push(board, ms[i]);
      i := i + 1;
    }
    return Replay(board, false);
  }

  /** How many of `ms` the rules accept in a row, starting on `b`. */
  function Accepted(rules: Rules, b: Board, ms: seq<String>): (k: nat)
    ensures k <= |ms|
    decreases |ms|
  {
    if ms != [] && rules.legal(b, ms[0]) then 1 + Accepted(rules, Push(b, ms[0]), ms[1..]) else 0
  }

  /** The board after the first `j` moves of `ms` have been pushed on `b`. */
  function After(b: Board, ms: seq<String>, j: nat): Board
    requires j <= |ms|
  {
    Board(b.setup, b.moves + ms[..j])
  }

  /**
   * A replay keeps exactly the legal prefix: its board is `b` with the first
   * `k` moves pushed, each of them legal where it was pushed; it failed exactly
   * when a move was left over, and that move is illegal on the final board.
   */
  lemma {:induction false} ReplayKeepsLegalPrefix(rules: Rules, b: Board, ms: seq<String>)
    ensures var k := Accepted(rules, b, ms);
      && PushAll(rules, b, ms).board == After(b, ms, k)
      && (PushAll(rules, b, ms).failed <==> k < |ms|)
      && (k < |ms| ==> !rules.legal(After(b, ms, k), ms[k]))
      && forall j :: 0 <= j < k ==> rules.legal(After(b, ms, j), ms[j])
    decreases |ms|
  {
    if ms != [] && rules.legal(b, ms[0]) {
      var b1 := Push(b, ms[0]);
      ReplayKeepsLegalPrefix(rules, b1, ms[1..]);
      var k := Accepted(rules, b, ms);
      assert After(b, ms, 0) == b by {
        assert b.moves + ms[..0] == b.moves;
      }
      forall j | 0 <= j <= |ms| - 1
        ensures After(b1, ms[1..], j) == After(b, ms, j + 1)
      {
        assert b1.moves + ms[1..][..j] == b.moves + ms[..j + 1];
      }
      forall j | 0 <= j < k
        ensures rules.legal(After(b, ms, j), ms[j])
      {
        if j > 0 {
          assert ms[1..][j - 1] == ms[j];
        }
      }
      if k < |ms| {
        assert ms[1..][k - 1] == ms[k];
      }
    } else {
      assert b.moves + ms[..0] == b.moves;
    }
  }

  /** When every move is legal, the replay applies the whole list. */
  lemma AllLegalReplaysAll(rules: Rules, b: Board, ms: seq<String>)
    requires forall j :: 0 <= j < |ms| ==> rules.legal(After(b, ms, j), ms[j])
    ensures PushAll(rules, b, ms) == Replay(Board(b.setup, b.moves + ms), false)
  {
    ReplayKeepsLegalPrefix(rules, b, ms);
    assert ms[..|ms|] == ms;
  }
}

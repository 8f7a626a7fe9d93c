/** Tic-tac-toe with a sliding window of six symbols (tictactoe/src/game.rs). */
module TicTacToe {
  import opened Wrappers
  import opened Primitives
  import opened Episodes

  datatype TTTError = OutOfBounds | Occupied | NotPlayersTurn

  datatype Move = Move(row: nat, col: nat)

  predicate InBounds(m: Move) {
    m.row < 3 && m.col < 3
  }

  type Square = m: Move | InBounds(m) witness Move(0, 0)

  datatype TTTRollback = TTTRollback(mv: Square, removed: Option<Square>, prevTimestamp: nat)

  /** The occupied cells, with their owners. */
  type Board = map<Square, PubKey>

  datatype Game = Game(board: Board, players: seq<PubKey>, current: nat, timestamp: nat, history: seq<Square>)

  function At(board: Board, sq: Square): Option<PubKey> {
    if sq in board then Some(board[sq]) else None
  }

  const WINDOW: nat := 6

  /** (current + 1) % n, for a turn below n. */
  function NextTurn(current: nat, n: nat): (next: nat)
    ensures n > 0 ==> next < n
  {
    if current + 1 < n then current + 1 else 0
  }

  lemma NextTurnIsModular(current: nat, n: nat)
    requires current < n
    ensures NextTurn(current, n) == (current + 1) % n
  {
  }

  function Initialize(participants: seq<PubKey>, md: PayloadMetadata): Game {
    Game(map[], participants, 0, md.acceptingTime, [])
  }

  /** With no player at all the source panics on its first authorised command; here that command
      is refused. The contract below does not cover such games. */
  function Check(s: Game, mv: Move, auth: Option<PubKey>): Option<EpisodeError<TTTError>> {
    if auth.None? || s.current >= |s.players| then Some(Unauthorized)
    else if auth.value != s.players[s.current] then Some(InvalidCommand(NotPlayersTurn))
    else if !InBounds(mv) then Some(InvalidCommand(OutOfBounds))
    else if mv in s.board then Some(InvalidCommand(Occupied))
    else None
  }

  /** The cells and the history without what the window pushes out. */
  function Kept(s: Game): (Board, seq<Square>) {
    if |s.history| == WINDOW then (s.board - {s.history[0]}, s.history[1..]) else (s.board, s.history)
  }

  /** The move itself, once it is found legal. */
  function Place(s: Game, mv: Square, player: PubKey, time: nat): Game {
    var (board, history) := Kept(s);
    Game(board[mv := player], s.players, NextTurn(s.current, |s.players|), time, history + [mv])
  }

  function RollbackOf(s: Game, mv: Square): TTTRollback {
    TTTRollback(mv, if |s.history| == WINDOW then Some(s.history[0]) else None, s.timestamp)
  }

  function Execute(s: Game, mv: Move, auth: Option<PubKey>, md: PayloadMetadata)
    : (Game, Result<TTTRollback, EpisodeError<TTTError>>)
  {
    match Check(s, mv, auth)
    case Some(error) => (s, Err(error))
    case None => (Place(s, mv, auth.value, md.acceptingTime), Ok(RollbackOf(s, mv)))
  }

  function Rollback(s: Game, r: TTTRollback): (Game, bool) {
    if r.mv !in s.board || s.players == [] then (s, false)
    else
      var current := NextTurn(s.current, |s.players|);
      var board := s.board - {r.mv};
      var history := if s.history == [] then [] else s.history[..|s.history| - 1];
      if r.removed.Some?
      then (Game(board[r.removed.value := s.players[current]], s.players, current, r.prevTimestamp,
                 [r.removed.value] + history), true)
      else (Game(board, s.players, current, r.prevTimestamp, history), true)
  }

  function Impl(): Episode<Game, Move, TTTRollback, TTTError> {
    Episode(Initialize, Execute, Rollback)
  }

  ghost function Squares(history: seq<Square>): set<Square> {
    set sq | sq in history
  }

  lemma {:induction false} SquaresSize(history: seq<Square>)
    ensures |Squares(history)| <= |history|
  {
    if history != [] {
      SquaresSize(history[1..]);
      assert history == [history[0]] + history[1..];
      assert Squares(history) == {history[0]} + Squares(history[1..]);
    }
  }

  /** Dropping the oldest entry of a history without repetitions drops its cell. */
  lemma SquaresTail(history: seq<Square>)
    requires history != [] && |Squares(history)| == |history|
    ensures Squares(history[1..]) == Squares(history) - {history[0]}
    ensures |Squares(history[1..])| == |history| - 1
  {
    SquaresSize(history[1..]);
    assert history == [history[0]] + history[1..];
    assert Squares(history) == {history[0]} + Squares(history[1..]);
  }

  /** Placing a symbol on a free cell keeps cells and history in step; taking it back restores. */
  lemma PushCell<V>(board: map<Square, V>, history: seq<Square>, sq: Square, v: V)
    requires board.Keys == Squares(history) && |board.Keys| == |history| && sq !in board
    ensures board[sq := v].Keys == Squares(history + [sq]) && |board[sq := v].Keys| == |history + [sq]|
    ensures board[sq := v] - {sq} == board && (history + [sq])[..|history|] == history
  {
    assert Squares(history + [sq]) == Squares(history) + {sq};
    assert board[sq := v].Keys == board.Keys + {sq};
  }

  /** Removing the oldest symbol keeps cells and history in step; putting it back restores. */
  lemma PopCell<V>(board: map<Square, V>, history: seq<Square>)
    requires board.Keys == Squares(history) && |board.Keys| == |history| && history != []
    ensures history[0] in board
    ensures (board - {history[0]}).Keys == Squares(history[1..]) && |(board - {history[0]}).Keys| == |history| - 1
    ensures (board - {history[0]})[history[0] := board[history[0]]] == board && [history[0]] + history[1..] == history
  {
    assert history[0] in Squares(history);
    SquaresTail(history);
    assert (board - {history[0]}).Keys == board.Keys - {history[0]};
  }

  /** The occupied cells are exactly those of the history, which never repeats a cell. */
  ghost predicate Consistent(s: Game) {
    && s.current < |s.players|
    && |s.history| <= WINDOW
    && s.board.Keys == Squares(s.history)
    && |s.board.Keys| == |s.history|
  }

  /** Whose symbol was placed `ago` moves before a turn of `current`, when n <= 2 players alternate. */
  function Owner(current: nat, ago: nat, n: nat): (x: nat)
    requires current < n
    ensures x < n
  {
    if ago == 0 then current else NextTurn(Owner(current, ago - 1, n), n)
  }

  lemma {:induction false} OwnerAdvances(current: nat, ago: nat, n: nat)
    requires current < n <= 2
    ensures Owner(NextTurn(current, n), ago + 1, n) == Owner(current, ago, n)
  {
    if ago == 0 {
      assert Owner(NextTurn(current, n), 0, n) == NextTurn(current, n);
    } else {
      OwnerAdvances(current, ago - 1, n);
    }
  }

  lemma {:induction false} OwnerParity(current: nat, ago: nat, n: nat)
    requires current < n <= 2
    ensures Owner(current, ago, n) == if n == 2 && ago % 2 == 1 then 1 - current else current
  {
    if ago != 0 {
      OwnerParity(current, ago - 1, n);
    }
  }

  /** The owner of an entry is fixed by the turn and by how many moves ago it was placed. */
  ghost predicate Alternates(s: Game)
    requires Consistent(s)
  {
    forall i :: 0 <= i < |s.history| ==>
      At(s.board, s.history[i]) == Some(s.players[Owner(s.current, |s.history| - i, |s.players|)])
  }

  ghost predicate Inv(s: Game) {
    Consistent(s) && |s.players| <= 2 && Alternates(s)
  }

  lemma InitializeInv(participants: seq<PubKey>, md: PayloadMetadata)
    requires 1 <= |participants| <= 2
    ensures Inv(Initialize(participants, md))
  {
  }

  /** What Check has established of an accepted move. */
  ghost predicate Legal(s: Game, mv: Square, player: PubKey) {
    s.current < |s.players| && s.players[s.current] == player && mv !in s.board
  }

  lemma KeptConsistent(s: Game)
    requires Consistent(s)
    ensures
      var (board, history) := Kept(s);
      board.Keys == Squares(history) && |board.Keys| == |history| < WINDOW
  {
    if |s.history| == WINDOW {
      PopCell(s.board, s.history);
    }
  }

  lemma PlaceConsistent(s: Game, mv: Square, player: PubKey, time: nat)
    requires Consistent(s) && Legal(s, mv, player)
    ensures Consistent(Place(s, mv, player, time))
  {
    KeptConsistent(s);
    var (board, history) := Kept(s);
    PushCell(board, history, mv, player);
  }

  /** Every kept entry is as many moves from the end as before, and its cell was not touched. */
  lemma KeptEntry(s: Game, i: nat)
    requires Consistent(s) && i < |Kept(s).1|
    ensures
      var (board, history) := Kept(s);
      exists j :: 0 <= j < |s.history| &&
        |s.history| - j == |history| - i && history[i] == s.history[j]
          && At(board, history[i]) == At(s.board, s.history[j])
  {
    var (board, history) := Kept(s);
    KeptConsistent(s);
    assert history[i] in Squares(history);
    var j := if |s.history| == WINDOW then i + 1 else i;
    assert history[i] == s.history[j];
  }

  lemma PlaceInv(s: Game, mv: Square, player: PubKey, time: nat)
    requires Inv(s) && Legal(s, mv, player)
    ensures Inv(Place(s, mv, player, time))
  {
    PlaceConsistent(s, mv, player, time);
    var s' := Place(s, mv, player, time);
    forall i | 0 <= i < |s'.history|
      ensures At(s'.board, s'.history[i]) == Some(s'.players[Owner(s'.current, |s'.history| - i, |s'.players|)])
    {
      OwnerAdvances(s.current, |s'.history| - i - 1, |s.players|);
      if i + 1 < |s'.history| {
        KeptEntry(s, i);
        assert s'.history[i] == Kept(s).1[i] != mv by {
          KeptConsistent(s);
          assert Kept(s).1[i] in Squares(Kept(s).1);
        }
      }
    }
  }

  /** Six moves back is always the player to move. */
  lemma OldestIsMovers(s: Game)
    requires Inv(s) && |s.history| == WINDOW
    ensures At(s.board, s.history[0]) == Some(s.players[s.current])
  {
    OwnerParity(s.current, 6, |s.players|);
  }

  lemma PlaceUndone(s: Game, mv: Square, player: PubKey, time: nat)
    requires Legal(s, mv, player) && |s.players| <= 2
    requires |s.history| == WINDOW ==> At(s.board, s.history[0]) == Some(s.players[s.current])
    ensures Rollback(Place(s, mv, player, time), RollbackOf(s, mv)) == (s, true)
  {
    var s' := Place(s, mv, player, time);
    var (board, history) := Kept(s);
    assert s'.board - {mv} == board;
    assert s'.history[..|s'.history| - 1] == history;
    assert NextTurn(s'.current, |s.players|) == s.current;
    if |s.history| == WINDOW {
      assert [s.history[0]] + history == s.history;
      assert board[s.history[0] := s.players[s.current]] == s.board;
    }
  }

  /** Rollback is an exact inverse: the evicted symbol comes back with its owner, although only
      its cell was stored. */
  lemma UndoExact(s: Game, mv: Move, auth: Option<PubKey>, md: PayloadMetadata)
    requires Inv(s) && Execute(s, mv, auth, md).1.Ok?
    ensures Inv(Execute(s, mv, auth, md).0)
    ensures
      var (s', res) := Execute(s, mv, auth, md);
      Rollback(s', res.value) == (s, true)
  {
    PlaceInv(s, mv, auth.value, md.acceptingTime);
    if |s.history| == WINDOW {
      OldestIsMovers(s);
    }
    PlaceUndone(s, mv, auth.value, md.acceptingTime);
  }

  /** Advancing the turn undoes advancing the turn only for one or two players. */
  lemma UndoExactIffTwoPlayers(s: Game, mv: Move, auth: Option<PubKey>, md: PayloadMetadata)
    requires Consistent(s) && (|s.players| <= 2 ==> Alternates(s)) && Execute(s, mv, auth, md).1.Ok?
    ensures
      var (s', res) := Execute(s, mv, auth, md);
      Rollback(s', res.value) == (s, true) <==> |s.players| <= 2
  {
    if |s.players| <= 2 {
      UndoExact(s, mv, auth, md);
    }
  }

  ghost function Rules(): Contract<Game> {
    Contract(ps => 1 <= |ps| <= 2, s => Inv(s), (s, t) => s == t)
  }

  lemma GameLaw(s: Game, mv: Move, auth: Option<PubKey>, md: PayloadMetadata)
    requires Inv(s)
    ensures ExecuteLaw(Impl(), Rules(), s, mv, auth, md)
  {
    if Execute(s, mv, auth, md).1.Ok? {
      UndoExact(s, mv, auth, md);
    }
  }

  /** The engine's theorems apply to this game, with equality as the notion of sameness. */
  lemma GameUndoes()
    ensures Undoes(Impl(), Rules())
  {
    forall ps, md | Rules().admits(ps) ensures Rules().inv(Impl().initialize(ps, md)) {
      InitializeInv(ps, md);
    }
    forall s, c, a, md | Rules().inv(s) ensures ExecuteLaw(Impl(), Rules(), s, c, a, md) {
      GameLaw(s, c, a, md);
    }
    UndoesExactly(Impl(), Rules());
  }

  /** What players are shown. */

  datatype Status = InProgress(next: PubKey) | Winner(player: PubKey) | Draw

  datatype Line = Line(a: Square, b: Square, c: Square)

  function Lines(): seq<Line> {
    [Line(Move(0, 0), Move(0, 1), Move(0, 2)), Line(Move(1, 0), Move(1, 1), Move(1, 2)),
     Line(Move(2, 0), Move(2, 1), Move(2, 2)), Line(Move(0, 0), Move(1, 0), Move(2, 0)),
     Line(Move(0, 1), Move(1, 1), Move(2, 1)), Line(Move(0, 2), Move(1, 2), Move(2, 2)),
     Line(Move(0, 0), Move(1, 1), Move(2, 2)), Line(Move(0, 2), Move(1, 1), Move(2, 0))]
  }

  function AllSquares(): set<Square> {
    set r, c | 0 <= r < 3 && 0 <= c < 3 :: Move(r, c)
  }

  predicate Holds(board: Board, line: Line, p: PubKey) {
    At(board, line.a) == At(board, line.b) == At(board, line.c) == Some(p)
  }

  predicate Full(board: Board) {
    AllSquares() <= board.Keys
  }

  /** The owner of the first uniform line of `lines`. */
  function FirstWinner(board: Board, lines: seq<Line>): Option<PubKey> {
    if lines == [] then None
    else if lines[0].a in board && Holds(board, lines[0], board[lines[0].a]) then Some(board[lines[0].a])
    else FirstWinner(board, lines[1..])
  }

  /** A player is declared winner only for owning a whole line, and no owned line is missed. */
  lemma {:induction false} FirstWinnerOwnsALine(board: Board, lines: seq<Line>)
    ensures
      match FirstWinner(board, lines)
      case Some(p) => exists line :: line in lines && Holds(board, line, p)
      case None => forall line, p :: line in lines ==> !Holds(board, line, p)
  {
    if lines != [] {
      var line, winner := lines[0], FirstWinner(board, lines);
      FirstWinnerOwnsALine(board, lines[1..]);
      assert lines == [line] + lines[1..];
      if line.a in board && Holds(board, line, board[line.a]) {
        assert line in lines;
      } else if winner.Some? {
        var l :| l in lines[1..] && Holds(board, l, winner.value);
        assert l in lines;
      } else {
        assert forall p :: !Holds(board, line, p);
      }
    }
  }

  function Poll(s: Game): Status
    requires s.current < |s.players|
  {
    var winner := FirstWinner(s.board, Lines());
    if winner.Some? then Winner(winner.value)
    else if Full(s.board) then Draw
    else InProgress(s.players[s.current])
  }

  ghost function CellsOf(board: Board, p: PubKey): set<Square> {
    set sq | sq in board && board[sq] == p
  }

  lemma SubsetSize<T>(a: set<T>, b: set<T>)
    requires a <= b
    ensures |a| <= |b|
  {
    assert b == a + (b - a);
  }

  /** The cells of every second entry, newest first. */
  function EverySecond(history: seq<Square>, n: nat): (squares: seq<Square>)
    requires n <= |history|
    ensures |squares| == (n + 1) / 2
    ensures forall i :: 0 <= i < n && (n - i) % 2 == 1 ==> history[i] in squares
  {
    if n == 0 then []
    else if n == 1 then [history[0]]
    else EverySecond(history, n - 2) + [history[n - 1]]
  }

  /** At most six cells are ever occupied, and at most three by each of two distinct players. */
  lemma SymbolsBounded(s: Game, x: nat)
    requires Inv(s) && x < |s.players|
    ensures |s.board.Keys| <= 6
    ensures |s.players| == 2 && s.players[0] != s.players[1] ==> |CellsOf(s.board, s.players[x])| <= 3
  {
    if |s.players| == 2 && s.players[0] != s.players[1] {
      var n := if x == s.current && s.history != [] then |s.history| - 1 else |s.history|;
      var squares := EverySecond(s.history, n);
      forall sq | sq in CellsOf(s.board, s.players[x]) ensures sq in Squares(squares) {
        CellInHistory(s, x, n, sq);
      }
      SubsetSize(CellsOf(s.board, s.players[x]), Squares(squares));
      SquaresSize(squares);
    }
  }

  lemma CellInHistory(s: Game, x: nat, n: nat, sq: Square)
    requires Inv(s) && x < |s.players| == 2 && s.players[0] != s.players[1]
    requires n == if x == s.current && s.history != [] then |s.history| - 1 else |s.history|
    requires sq in CellsOf(s.board, s.players[x])
    ensures sq in EverySecond(s.history, n)
  {
    assert sq in Squares(s.history);
    var i :| 0 <= i < |s.history| && s.history[i] == sq;
    assert At(s.board, sq) == Some(s.players[Owner(s.current, |s.history| - i, 2)]);
    EntryParity(s.current, |s.history|, i, x, n);
  }

  lemma EntryParity(current: nat, length: nat, i: nat, x: nat, n: nat)
    requires current < 2 && i < length && x < 2 && Owner(current, length - i, 2) == x
    requires n == if x == current then length - 1 else length
    ensures i < n && (n - i) % 2 == 1
  {
    OwnerParity(current, length - i, 2);
  }

  lemma NotFull(s: Game)
    requires Consistent(s)
    ensures !Full(s.board)
  {
    var seven: set<Square> := {Move(0, 0), Move(0, 1), Move(0, 2), Move(1, 0), Move(1, 1), Move(1, 2), Move(2, 0)};
    if Full(s.board) {
      assert seven <= AllSquares();
      SubsetSize(seven, s.board.Keys);
    }
  }

  /** A game whose cells are those of its history never shows a draw, whoever plays. */
  lemma NeverDraw(s: Game)
    requires Consistent(s)
    ensures !Poll(s).Draw?
  {
    NotFull(s);
  }
}

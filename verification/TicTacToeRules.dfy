/** The rules of the two games in coordinates: which moves are accepted, what they change, who wins. */
module TicTacToeRules {
  import opened Wrappers
  import opened Primitives
  import opened Episodes
  import opened TicTacToe
  import opened AgentTicTacToe

  predicate Owns(board: Board, p: PubKey, row: nat, col: nat) {
    Move(row, col) in board && row < 3 && col < 3 && board[Move(row, col)] == p
  }

  /** Three in a row, a column or a diagonal. */
  predicate OwnsLine(board: Board, p: PubKey) {
    || (exists row: nat :: row < 3 && Owns(board, p, row, 0) && Owns(board, p, row, 1) && Owns(board, p, row, 2))
    || (exists col: nat :: col < 3 && Owns(board, p, 0, col) && Owns(board, p, 1, col) && Owns(board, p, 2, col))
    || (Owns(board, p, 0, 0) && Owns(board, p, 1, 1) && Owns(board, p, 2, 2))
    || (Owns(board, p, 0, 2) && Owns(board, p, 1, 1) && Owns(board, p, 2, 0))
  }

  lemma HoldsOwns(board: Board, line: Line, p: PubKey)
    ensures Holds(board, line, p) <==>
            && Owns(board, p, line.a.row, line.a.col) && Owns(board, p, line.b.row, line.b.col)
            && Owns(board, p, line.c.row, line.c.col)
  {
    assert Move(line.a.row, line.a.col) == line.a && Move(line.b.row, line.b.col) == line.b;
    assert Move(line.c.row, line.c.col) == line.c;
  }

  /** Eight lines, one by one. */
  predicate HoldsAny(board: Board, ls: seq<Line>, p: PubKey)
    requires |ls| == 8
  {
    || Holds(board, ls[0], p) || Holds(board, ls[1], p) || Holds(board, ls[2], p) || Holds(board, ls[3], p)
    || Holds(board, ls[4], p) || Holds(board, ls[5], p) || Holds(board, ls[6], p) || Holds(board, ls[7], p)
  }

  lemma AnyIff(board: Board, ls: seq<Line>, p: PubKey)
    requires |ls| == 8
    ensures HoldsAny(board, ls, p) <==> exists line :: line in ls && Holds(board, line, p)
  {
    if i: nat :| i < 8 && Holds(board, ls[i], p) {
      assert ls[i] in ls;
    }
  }

  lemma OwnsAny(board: Board, p: PubKey)
    ensures OwnsLine(board, p) <==> HoldsAny(board, Lines(), p)
  {
    var ls := Lines();
    HoldsOwns(board, ls[0], p);
    HoldsOwns(board, ls[1], p);
    HoldsOwns(board, ls[2], p);
    HoldsOwns(board, ls[3], p);
    HoldsOwns(board, ls[4], p);
    HoldsOwns(board, ls[5], p);
    HoldsOwns(board, ls[6], p);
    HoldsOwns(board, ls[7], p);
    if row: nat :| row < 3 && Owns(board, p, row, 0) && Owns(board, p, row, 1) && Owns(board, p, row, 2) {
      assert row == 0 || row == 1 || row == 2;
    }
    if col: nat :| col < 3 && Owns(board, p, 0, col) && Owns(board, p, 1, col) && Owns(board, p, 2, col) {
      assert col == 0 || col == 1 || col == 2;
    }
  }

  lemma LineIff(board: Board, p: PubKey)
    ensures OwnsLine(board, p) <==> exists line :: line in Lines() && Holds(board, line, p)
  {
    AnyIff(board, Lines(), p);
    OwnsAny(board, p);
  }

  /** A winner is shown exactly if somebody owns a line, and it is somebody who does; if only one does,
      it is that player exactly. */
  lemma WinnerOwnsALine(s: Game, p: PubKey)
    requires s.current < |s.players|
    ensures Poll(s).Winner? <==> exists q :: OwnsLine(s.board, q)
    ensures Poll(s) == Winner(p) ==> OwnsLine(s.board, p)
    ensures (forall q :: OwnsLine(s.board, q) ==> q == p) ==> (Poll(s) == Winner(p) <==> OwnsLine(s.board, p))
  {
    FirstWinnerOwnsALine(s.board, Lines());
    var winner := FirstWinner(s.board, Lines());
    if winner.Some? {
      LineIff(s.board, winner.value);
    } else {
      forall q ensures !OwnsLine(s.board, q) {
        LineIff(s.board, q);
      }
    }
  }

  /** Without a winner, the game is drawn exactly if all nine cells are taken, and otherwise shows whose
      turn it is. */
  lemma WithoutWinner(s: Game)
    requires s.current < |s.players| && !Poll(s).Winner?
    ensures Poll(s).Draw? <==> forall row: nat, col: nat :: row < 3 && col < 3 ==> Move(row, col) in s.board
    ensures !Poll(s).Draw? ==> Poll(s) == InProgress(s.players[s.current])
  {
    if forall row: nat, col: nat :: row < 3 && col < 3 ==> Move(row, col) in s.board {
      assert AllSquares() <= s.board.Keys;
    }
    if Full(s.board) {
      forall row: nat, col: nat | row < 3 && col < 3 ensures Move(row, col) in s.board {
        assert Move(row, col) in AllSquares();
      }
    }
  }

  /** A move is accepted from the player to move, inside the board, on a free cell. */
  lemma MoveIff(s: Game, mv: Move, auth: Option<PubKey>, md: PayloadMetadata)
    ensures
      var (s', res) := Execute(s, mv, auth, md);
      var myTurn := auth.Some? && s.current < |s.players| && auth.value == s.players[s.current];
      && (res.Ok? <==> myTurn && mv.row <= 2 && mv.col <= 2 && mv !in s.board)
      && (res == Err(Unauthorized) <==> auth.None? || s.current >= |s.players|)
      && (res == Err(InvalidCommand(NotPlayersTurn)) <==> auth.Some? && s.current < |s.players| && !myTurn)
      && (res == Err(InvalidCommand(TTTError.OutOfBounds)) <==> myTurn && (mv.row > 2 || mv.col > 2))
      && (res == Err(InvalidCommand(Occupied)) <==> myTurn && mv.row <= 2 && mv.col <= 2 && mv in s.board)
      && (res.Err? ==> s' == s)
  {
  }

  /** What an accepted move changes: the cell becomes the mover's, the oldest of six symbols goes, the
      turn passes to the next player, and the rollback object names the three things undone. */
  lemma MoveWrites(s: Game, mv: Move, auth: Option<PubKey>, md: PayloadMetadata)
    requires Execute(s, mv, auth, md).1.Ok?
    ensures auth.Some? && InBounds(mv) && s.current < |s.players|
    ensures
      var (s', res) := Execute(s, mv, auth, md);
      var full := |s.history| == 6;
      && s'.players == s.players && s'.timestamp == md.acceptingTime
      && s'.current == (s.current + 1) % |s.players|
      && s'.history == (if full then s.history[1..] else s.history) + [mv]
      && (forall sq: Square :: At(s'.board, sq) ==
            if sq == mv then auth else if full && sq == s.history[0] then None else At(s.board, sq))
      && res.value == TTTRollback(mv, if full then Some(s.history[0]) else None, s.timestamp)
  {
    NextTurnIsModular(s.current, |s.players|);
  }

  /** A rollback fails, and changes nothing, exactly if the move's cell is empty or nobody plays. */
  lemma RollbackIff(s: Game, r: TTTRollback)
    ensures
      var (s', ok) := Rollback(s, r);
      (ok <==> r.mv in s.board && s.players != []) && (!ok ==> s' == s)
  {
  }

  /** A new game: empty, the first player to move. */
  lemma NewGame(ps: seq<PubKey>, md: PayloadMetadata)
    ensures
      var s := Initialize(ps, md);
      && s.players == ps && s.current == 0 && s.timestamp == md.acceptingTime && s.history == []
      && forall sq: Square :: At(s.board, sq) == None
  {
  }

  /** The second game: a move is accepted inside the board, on a free cell, for the player to move, from
      the participant who plays that symbol. */
  lemma AgentMoveIff(s: Agent, cmd: TttCommand, auth: Option<PubKey>, md: PayloadMetadata)
    ensures
      var (s', res) := ExecuteAgent(s, cmd, auth, md);
      var inside := cmd.row < 3 && cmd.col < 3;
      var free := inside && Move(cmd.row, cmd.col) !in s.board;
      var turn := free && cmd.player == if s.current == X then 0 else 1;
      && (res.Ok? <==> turn && cmd.player < |s.participants| && auth == Some(s.participants[cmd.player]))
      && (res == Err(InvalidCommand(TicTacToeError.OutOfBounds)) <==> !inside)
      && (res == Err(InvalidCommand(CellOccupied)) <==> inside && !free)
      && (res == Err(InvalidCommand(WrongTurn)) <==> free && !turn)
      && (res == Err(Unauthorized) <==>
            turn && !(cmd.player < |s.participants| && auth == Some(s.participants[cmd.player])))
      && (res.Err? ==> s' == s)
  {
  }

  /** What an accepted move of the second game changes. */
  lemma AgentMoveWrites(s: Agent, cmd: TttCommand, auth: Option<PubKey>, md: PayloadMetadata)
    requires ExecuteAgent(s, cmd, auth, md).1.Ok?
    ensures cmd.row < 3 && cmd.col < 3
    ensures
      var (s', res) := ExecuteAgent(s, cmd, auth, md);
      var full, sq := |s.history| == 6, Move(cmd.row, cmd.col);
      && s'.participants == s.participants && s'.current == (if s.current == X then O else X)
      && s'.history == (if full then s.history[1..] else s.history) + [sq]
      && (forall other: Square :: (other in s'.board <==>
            other == sq || (other in s.board && !(full && other == s.history[0]))))
      && s'.board[sq] == (if s.current == X then 1 else 2)
      && (forall other: Square :: other in s'.board && other != sq ==> s'.board[other] == s.board[other])
      && res.value.square == sq && res.value.prevPlayer == (if s.current == X then 0 else 1)
      && res.value.removed == (if full && s.history[0] in s.board
                               then Some(TttRemoved(s.history[0], s.board[s.history[0]])) else None)
  {
  }
}

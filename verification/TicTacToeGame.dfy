/** The game as the source runs it: one board updated in place, proved to follow TicTacToe. */
module TicTacToeGames {
  import opened Wrappers
  import opened Primitives
  import opened Episodes
  import opened TicTacToe

  class TicTacToeGame {
    const board: array2<Option<PubKey>>
    const players: seq<PubKey>
    var currentIndex: nat
    var timestamp: nat
    var moveHistory: seq<Square>

    ghost predicate Valid()
      reads this, board
    {
      board.Length0 == 3 && board.Length1 == 3 && (players != [] ==> currentIndex < |players|)
    }

    ghost function Cells(): Board
      requires board.Length0 == 3 && board.Length1 == 3
      reads board
    {
      map sq: Square | sq in AllSquares() && board[sq.row, sq.col].Some? :: board[sq.row, sq.col].value
    }

    ghost function View(): Game
      requires Valid()
      reads this, board
    {
      Game(Cells(), players, currentIndex, timestamp, moveHistory)
    }

    constructor (participants: seq<PubKey>, md: PayloadMetadata)
      ensures Valid() && fresh(board) && View() == Initialize(participants, md)
    {
      board := new Option<PubKey>[3, 3]((_, _) => None);
      players := participants;
      currentIndex := 0;
      timestamp := md.acceptingTime;
      moveHistory := [];
    }

    method Put(sq: Square, symbol: Option<PubKey>)
      requires Valid()
      modifies board
      ensures Valid()
      ensures Cells() == if symbol.Some? then old(Cells())[sq := symbol.value] else old(Cells()) - {sq}
    {
      SquareListed(sq);
      board[sq.row, sq.col] := symbol;
      assert forall other: Square :: other != sq ==> board[other.row, other.col] == old(board[other.row, other.col]);
    }

    method ExecuteCommand(cmd: Move, auth: Option<PubKey>, md: PayloadMetadata)
      returns (res: Result<TTTRollback, EpisodeError<TTTError>>)
      requires Valid() && players != []
      modifies this, board
      ensures Valid() && (View(), res) == Execute(old(View()), cmd, auth, md)
    {
      if auth.None? {
        return Err(Unauthorized);
      }
      var player := auth.value;
      if player != players[currentIndex] {
        return Err(InvalidCommand(NotPlayersTurn));
      }
      if cmd.row >= 3 || cmd.col >= 3 {
        return Err(InvalidCommand(OutOfBounds));
      }
      SquareListed(cmd);
      if board[cmd.row, cmd.col].Some? {
        return Err(InvalidCommand(Occupied));
      }
      var removed := None;
      if |moveHistory| == WINDOW {
        var oldest := moveHistory[0];
        moveHistory := moveHistory[1..];
        Put(oldest, None);
        removed := Some(oldest);
      }
      Put(cmd, Some(player));
      moveHistory := moveHistory + [cmd];
      var oldTimestamp := timestamp;
      timestamp := md.acceptingTime;
      NextTurnIsModular(currentIndex, |players|);
      currentIndex := (currentIndex + 1) % |players|;
      return Ok(TTTRollback(cmd, removed, oldTimestamp));
    }

    method RollbackCommand(rollback: TTTRollback) returns (ok: bool)
      requires Valid() && players != []
      modifies this, board
      ensures Valid() && (View(), ok) == Rollback(old(View()), rollback)
    {
      SquareListed(rollback.mv);
      if board[rollback.mv.row, rollback.mv.col].None? {
        return false;
      }
      timestamp := rollback.prevTimestamp;
      Put(rollback.mv, None);
      NextTurnIsModular(currentIndex, |players|);
      currentIndex := (currentIndex + 1) % |players|;
      if moveHistory != [] {
        moveHistory := moveHistory[..|moveHistory| - 1];
      }
      if rollback.removed.Some? {
        // Six moves back is always the current player.
        Put(rollback.removed.value, Some(players[currentIndex]));
        moveHistory := [rollback.removed.value] + moveHistory;
      }
      return true;
    }

    method CheckWinner() returns (winner: Option<PubKey>)
      requires Valid()
      ensures winner == FirstWinner(View().board, Lines())
    {
      var i := 0;
      var lines := Lines();
      assert lines[0..] == lines;
      while i < |lines|
        invariant 0 <= i <= |lines|
        invariant FirstWinner(View().board, lines[i..]) == FirstWinner(View().board, lines)
      {
        var line := lines[i];
        SquareListed(line.a);
        SquareListed(line.b);
        SquareListed(line.c);
        var p := board[line.a.row, line.a.col];
        if p.Some? && board[line.b.row, line.b.col] == p && board[line.c.row, line.c.col] == p {
          return p;
        }
        assert lines[i..][1..] == lines[i + 1..];
        i := i + 1;
      }
      return None;
    }

    method IsDraw() returns (full: bool)
      requires Valid()
      ensures full <==> Full(View().board)
    {
      for row := 0 to 3
        invariant forall sq: Square :: sq.row < row ==> sq in View().board
      {
        for col := 0 to 3
          invariant forall sq: Square :: sq.row < row || (sq.row == row && sq.col < col) ==> sq in View().board
        {
          SquareListed(Move(row, col));
          if board[row, col].None? {
            return false;
          }
        }
      }
      return true;
    }

    method PollStatus() returns (status: Status)
      requires Valid() && players != []
      ensures status == Poll(View())
    {
      var winner := CheckWinner();
      if winner.Some? {
        return Winner(winner.value);
      }
      var full := IsDraw();
      return if full then Draw else InProgress(players[currentIndex]);
    }
  }

  lemma SquareListed(sq: Move)
    requires InBounds(sq)
    ensures sq in AllSquares()
  {
    assert sq == Move(sq.row, sq.col);
  }
}


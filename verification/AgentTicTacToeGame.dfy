/** The second game as the source runs it, proved to follow AgentTicTacToe. */
module AgentTicTacToeGames {
  import opened Wrappers
  import opened Primitives
  import opened Episodes
  import opened TicTacToe
  import opened TicTacToeGames
  import opened AgentTicTacToe

  class AgentTicTacToeGame {
    const board: array2<Byte> // 0 empty, 1 X, 2 O
    const participants: seq<PubKey>
    var current: Player
    var moveHistory: seq<Square>

    ghost predicate Valid()
      reads this
    {
      board.Length0 == 3 && board.Length1 == 3
    }

    ghost function Cells(): map<Square, Symbol>
      requires board.Length0 == 3 && board.Length1 == 3
      reads board
    {
      map sq: Square | sq in AllSquares() && board[sq.row, sq.col] != 0 :: board[sq.row, sq.col]
    }

    ghost function View(): Agent
      requires Valid()
      reads this, board
    {
      Agent(Cells(), current, participants, moveHistory)
    }

    constructor (participants: seq<PubKey>, md: PayloadMetadata)
      ensures Valid() && fresh(board) && View() == InitializeAgent(participants, md)
    {
      board := new Byte[3, 3]((_, _) => 0);
      this.participants := participants;
      current := X;
      moveHistory := [];
    }

    method Put(sq: Square, symbol: Byte)
      requires Valid()
      modifies board
      ensures Valid()
      ensures Cells() == if symbol != 0 then old(Cells())[sq := symbol] else old(Cells()) - {sq}
    {
      SquareListed(sq);
      board[sq.row, sq.col] := symbol;
      assert forall other: Square :: other != sq ==> board[other.row, other.col] == old(board[other.row, other.col]);
    }

    method ExecuteCommand(cmd: TttCommand, auth: Option<PubKey>, md: PayloadMetadata)
      returns (res: Result<TttRollback, EpisodeError<TicTacToeError>>)
      requires Valid()
      modifies this, board
      ensures Valid() && (View(), res) == ExecuteAgent(old(View()), cmd, auth, md)
    {
      if cmd.row > 2 || cmd.col > 2 {
        return Err(InvalidCommand(TicTacToeError.OutOfBounds));
      }
      var square := Move(cmd.row, cmd.col);
      SquareListed(square);
      if board[cmd.row, cmd.col] != 0 {
        return Err(InvalidCommand(CellOccupied));
      }
      var want: Byte := if current.X? then 0 else 1;
      if cmd.player != want {
        return Err(InvalidCommand(WrongTurn));
      }
      if auth.None? {
        return Err(Unauthorized);
      }
      if cmd.player >= |participants| || auth.value != participants[cmd.player] {
        return Err(Unauthorized);
      }
      var removed := None;
      if |moveHistory| == WINDOW {
        var oldest := moveHistory[0];
        moveHistory := moveHistory[1..];
        SquareListed(oldest);
        var symbol := board[oldest.row, oldest.col];
        if symbol != 0 {
          Put(oldest, 0);
          removed := Some(TttRemoved(oldest, symbol));
        }
      }
      Put(square, if cmd.player == 0 then 1 else 2);
      moveHistory := moveHistory + [square];
      current := if cmd.player == 0 then O else X;
      return Ok(TttRollback(square, want, removed));
    }

    method RollbackCommand(rollback: TttRollback) returns (ok: bool)
      requires Valid()
      modifies this, board
      ensures Valid() && (View(), ok) == RollbackAgent(old(View()), rollback)
    {
      Put(rollback.square, 0);
      if moveHistory != [] {
        moveHistory := moveHistory[..|moveHistory| - 1];
      }
      if rollback.removed.Some? {
        Put(rollback.removed.value.square, rollback.removed.value.symbol);
        moveHistory := [rollback.removed.value.square] + moveHistory;
      }
      current := if rollback.prevPlayer == 0 then X else O;
      return true;
    }
  }
}

/** What holds of games of any number of players: cells and history stay in step through moves and
    rollbacks, although for more than two players owners and turn are not restored. */
module TicTacToeGrid {
  import opened Wrappers
  import opened Primitives
  import opened Episodes
  import opened TicTacToe
  import EngineStacks

  ghost predicate GridOk(s: Game) {
    && (s.players != [] ==> s.current < |s.players|)
    && |s.history| <= WINDOW
    && s.board.Keys == Squares(s.history)
    && |s.board.Keys| == |s.history|
  }

  /** The same cells in the same order; owners, turn and time may differ. */
  ghost predicate SameGrid(s: Game, t: Game) {
    s.players == t.players && s.history == t.history && s.board.Keys == t.board.Keys
  }

  /** Every pending rollback will succeed and leave cells and history in step. */
  ghost predicate Pending(s: Game, stack: seq<TTTRollback>)
    decreases |stack|
  {
    GridOk(s) &&
    (stack != [] ==>
       var (s', ok) := Rollback(s, stack[|stack| - 1]);
       ok && Pending(s', stack[..|stack| - 1]))
  }

  lemma RollbackSameGrid(s: Game, t: Game, r: TTTRollback)
    requires SameGrid(s, t)
    ensures Rollback(s, r).1 == Rollback(t, r).1
    ensures SameGrid(Rollback(s, r).0, Rollback(t, r).0)
  {
    assert (s.board - {r.mv}).Keys == (t.board - {r.mv}).Keys;
  }

  lemma GridOkSame(s: Game, t: Game, r: TTTRollback)
    requires SameGrid(s, t) && Rollback(t, r).1 && GridOk(Rollback(s, r).0)
    ensures GridOk(Rollback(t, r).0)
  {
    RollbackSameGrid(s, t, r);
  }

  lemma {:induction false} PendingSameGrid(s: Game, t: Game, stack: seq<TTTRollback>)
    requires SameGrid(s, t) && GridOk(t) && Pending(s, stack)
    ensures Pending(t, stack)
    decreases |stack|
  {
    if stack != [] {
      var r := stack[|stack| - 1];
      RollbackSameGrid(s, t, r);
      GridOkSame(s, t, r);
      PendingSameGrid(Rollback(s, r).0, Rollback(t, r).0, stack[..|stack| - 1]);
    }
  }

  lemma PlaceUndoneInGrid(s: Game, mv: Square, player: PubKey, time: nat)
    requires Consistent(s) && mv !in s.board
    ensures
      var (back, ok) := Rollback(Place(s, mv, player, time), RollbackOf(s, mv));
      ok && SameGrid(back, s) && back.current < |back.players|
  {
    var s' := Place(s, mv, player, time);
    var (board, history) := Kept(s);
    KeptConsistent(s);
    assert mv !in board;
    assert s'.board - {mv} == board;
    assert s'.history[..|s'.history| - 1] == history;
    if |s.history| == WINDOW {
      assert [s.history[0]] + history == s.history;
      PopCell(s.board, s.history);
      RestoredKeys(s.board, s.history[0], s.players[NextTurn(s'.current, |s.players|)]);
    }
  }

  lemma RestoredKeys<V>(board: map<Square, V>, sq: Square, v: V)
    requires sq in board
    ensures (board - {sq})[sq := v].Keys == board.Keys
  {
  }

  lemma PushPending(s': Game, stack: seq<TTTRollback>, r: TTTRollback)
    requires GridOk(s') && Rollback(s', r).1 && Pending(Rollback(s', r).0, stack)
    ensures Pending(s', stack + [r])
  {
    assert (stack + [r])[..|stack|] == stack;
  }

  lemma PlacePending(s: Game, stack: seq<TTTRollback>, mv: Square, player: PubKey, time: nat)
    requires Pending(s, stack) && Legal(s, mv, player)
    ensures Pending(Place(s, mv, player, time), stack + [RollbackOf(s, mv)])
  {
    PlaceConsistent(s, mv, player, time);
    PlaceUndoneInGrid(s, mv, player, time);
    PendingSameGrid(s, Rollback(Place(s, mv, player, time), RollbackOf(s, mv)).0, stack);
    PushPending(Place(s, mv, player, time), stack, RollbackOf(s, mv));
  }

  lemma ExecutePending(s: Game, stack: seq<TTTRollback>, mv: Move, auth: Option<PubKey>, md: PayloadMetadata)
    requires Pending(s, stack)
    ensures EngineStacks.TiedByExecute(Impl(), Pending, s, stack, mv, auth, md)
  {
    if Check(s, mv, auth).None? {
      PlacePending(s, stack, mv, auth.value, md.acceptingTime);
    }
  }

  /** Every operation of the game keeps all pending rollbacks good, for any participants. */
  lemma GamesKeepPending()
    ensures EngineStacks.Keeps(Impl(), Pending)
  {
    forall s, stack, c, a, md | Pending(s, stack)
      ensures EngineStacks.TiedByExecute(Impl(), Pending, s, stack, c, a, md)
    {
      ExecutePending(s, stack, c, a, md);
    }
  }

  lemma {:induction false} PendingSucceeds(s: Game, stack: seq<TTTRollback>)
    requires Pending(s, stack)
    ensures RollbackAll(Impl(), s, stack).1
    decreases |stack|
  {
    if stack != [] {
      PendingSucceeds(Rollback(s, stack[|stack| - 1]).0, stack[..|stack| - 1]);
    }
  }
}

/** The second tic-tac-toe (kdapp-mcp-server/src/state.rs), and its bisimulation with the first. */
module AgentTicTacToe {
  import opened Wrappers
  import opened Primitives
  import opened Episodes
  import opened TicTacToe

  datatype Player = X | O

  datatype TicTacToeError = OutOfBounds | CellOccupied | WrongTurn

  datatype TttCommand = MoveTo(row: Byte, col: Byte, player: Byte)

  /** What an occupied cell holds: 1 for X, 2 for O, never 0. */
  type Symbol = b: Byte | b != 0 witness 1

  datatype TttRemoved = TttRemoved(square: Square, symbol: Symbol)

  datatype TttRollback = TttRollback(square: Square, prevPlayer: Byte, removed: Option<TttRemoved>)

  /** The board maps occupied cells to their symbol. */
  datatype Agent = Agent(board: map<Square, Symbol>, current: Player, participants: seq<PubKey>, history: seq<Square>)

  function InitializeAgent(participants: seq<PubKey>, md: PayloadMetadata): Agent {
    Agent(map[], X, participants, [])
  }

  function PlayerByte(p: Player): Byte {
    if p.X? then 0 else 1
  }

  function CheckAgent(s: Agent, cmd: TttCommand, auth: Option<PubKey>): Option<EpisodeError<TicTacToeError>> {
    if cmd.row > 2 || cmd.col > 2 then Some(InvalidCommand(TicTacToeError.OutOfBounds))
    else if Move(cmd.row, cmd.col) in s.board then Some(InvalidCommand(CellOccupied))
    else if cmd.player != PlayerByte(s.current) then Some(InvalidCommand(WrongTurn))
    else if auth.None? then Some(Unauthorized)
    else if cmd.player >= |s.participants| || auth.value != s.participants[cmd.player] then Some(Unauthorized)
    else None
  }

  /** The board and the history after the window makes room for a move, and the symbol removed. */
  datatype Room = Room(board: map<Square, Symbol>, history: seq<Square>, removed: Option<TttRemoved>)

  function MakeRoom(s: Agent): Room {
    if |s.history| != WINDOW then Room(s.board, s.history, None)
    else
      var oldest := s.history[0];
      if oldest in s.board
      then Room(s.board - {oldest}, s.history[1..], Some(TttRemoved(oldest, s.board[oldest])))
      else Room(s.board, s.history[1..], None)
  }

  function PlaceIn(s: Agent, room: Room, square: Square): Agent {
    Agent(room.board[square := SymbolOf(s.current)], if s.current.X? then O else X, s.participants,
          room.history + [square])
  }

  function SymbolOf(p: Player): Symbol {
    if p.X? then 1 else 2
  }

  function PlaceAgent(s: Agent, square: Square): (Agent, TttRollback) {
    var room := MakeRoom(s);
    (PlaceIn(s, room, square), TttRollback(square, PlayerByte(s.current), room.removed))
  }

  function ExecuteAgent(s: Agent, cmd: TttCommand, auth: Option<PubKey>, md: PayloadMetadata)
    : (Agent, Result<TttRollback, EpisodeError<TicTacToeError>>)
  {
    match CheckAgent(s, cmd, auth)
    case Some(error) => (s, Err(error))
    case None =>
      var (s', rollback) := PlaceAgent(s, Move(cmd.row, cmd.col));
      (s', Ok(rollback))
  }

  function RollbackAgent(s: Agent, r: TttRollback): (Agent, bool) {
    var board := s.board - {r.square};
    var history := if s.history == [] then [] else s.history[..|s.history| - 1];
    var current := if r.prevPlayer == 0 then X else O;
    if r.removed.Some?
    then (Agent(board[r.removed.value.square := r.removed.value.symbol], current, s.participants,
                [r.removed.value.square] + history), true)
    else (Agent(board, current, s.participants, history), true)
  }

  function AgentImpl(): Episode<Agent, TttCommand, TttRollback, TicTacToeError> {
    Episode(InitializeAgent, ExecuteAgent, RollbackAgent)
  }

  ghost predicate AgentInv(s: Agent) {
    |s.history| <= WINDOW && s.board.Keys == Squares(s.history)
    && |s.board.Keys| == |s.history|
  }

  /** The room has the window's shape, and the removed symbol is what is missing from the board. */
  ghost predicate RoomFor(s: Agent, room: Room) {
    && room.board.Keys == Squares(room.history) && |room.board.Keys| == |room.history| < WINDOW
    && match room.removed
       case None => room.board == s.board && room.history == s.history
       case Some(rem) => room.board[rem.square := rem.symbol] == s.board && [rem.square] + room.history == s.history
  }

  lemma MakeRoomInv(s: Agent)
    requires AgentInv(s)
    ensures RoomFor(s, MakeRoom(s))
  {
    if |s.history| == WINDOW {
      PopCell(s.board, s.history);
    }
  }

  lemma PlaceInInv(s: Agent, room: Room, square: Square)
    requires RoomFor(s, room) && square !in room.board
    ensures AgentInv(PlaceIn(s, room, square))
  {
    PushCell(room.board, room.history, square, SymbolOf(s.current));
  }

  lemma PlaceInUndone(s: Agent, room: Room, square: Square)
    requires RoomFor(s, room) && square !in room.board
    ensures RollbackAgent(PlaceIn(s, room, square), TttRollback(square, PlayerByte(s.current), room.removed)) ==
      (s, true)
  {
    var s' := PlaceIn(s, room, square);
    assert s'.board - {square} == room.board;
    assert s'.history[..|s'.history| - 1] == room.history;
  }

  /** An accepted command keeps the invariant and is undone exactly by its rollback. */
  lemma AgentUndone(s: Agent, cmd: TttCommand, auth: Option<PubKey>, md: PayloadMetadata)
    requires AgentInv(s) && CheckAgent(s, cmd, auth).None?
    ensures
      var (s', res) := ExecuteAgent(s, cmd, auth, md);
      AgentInv(s') && RollbackAgent(s', res.value) == (s, true)
  {
    MakeRoomInv(s);
    PlaceInInv(s, MakeRoom(s), Move(cmd.row, cmd.col));
    PlaceInUndone(s, MakeRoom(s), Move(cmd.row, cmd.col));
  }

  ghost function AgentRules(): Contract<Agent> {
    Contract(ps => true, s => AgentInv(s), (s, t) => s == t)
  }

  lemma AgentLaw(s: Agent, cmd: TttCommand, auth: Option<PubKey>, md: PayloadMetadata)
    requires AgentInv(s)
    ensures ExecuteLaw(AgentImpl(), AgentRules(), s, cmd, auth, md)
  {
    if CheckAgent(s, cmd, auth).None? {
      AgentUndone(s, cmd, auth, md);
    }
  }

  /** Storing the evicted symbol makes rollback exact for every participant list. */
  lemma AgentUndoes()
    ensures Undoes(AgentImpl(), AgentRules())
  {
    forall s, c, a, md | AgentRules().inv(s) ensures ExecuteLaw(AgentImpl(), AgentRules(), s, c, a, md) {
      AgentLaw(s, c, a, md);
    }
    UndoesExactly(AgentImpl(), AgentRules());
  }

  /** Bisimulation, for two participants. */

  function IndexOf(p: Player): nat {
    if p.X? then 0 else 1
  }

  ghost predicate SameBoard(board: Board, players: seq<PubKey>, symbols: map<Square, Symbol>)
    requires |players| == 2
  {
    && board.Keys == symbols.Keys
    && forall sq :: sq in board ==> symbols[sq] in {1, 2} && board[sq] == players[symbols[sq] - 1]
  }

  ghost predicate Related(g: Game, a: Agent) {
    && |g.players| == 2 && g.players == a.participants
    && g.current == IndexOf(a.current)
    && g.history == a.history
    && SameBoard(g.board, g.players, a.board)
  }

  /** Related states whose two rollback stacks stay in step all the way down. */
  ghost predicate InStep(g: Game, gs: seq<TTTRollback>, a: Agent, stack: seq<TttRollback>)
    decreases |gs|
  {
    && Related(g, a) && |gs| == |stack|
    && (gs != [] ==>
          var last := |gs| - 1;
          && SameCells(gs[last], stack[last])
          && Rollback(g, gs[last]).1 && RollbackAgent(a, stack[last]).1
          && InStep(Rollback(g, gs[last]).0, gs[..last], RollbackAgent(a, stack[last]).0, stack[..last]))
  }

  lemma InitiallyInStep(participants: seq<PubKey>, md: PayloadMetadata)
    requires |participants| == 2
    ensures InStep(Initialize(participants, md), [], InitializeAgent(participants, md), [])
  {
  }

  /** A move naming its player is accepted by the second game exactly when that player is to move
      and the first game accepts the same authorised move. */
  lemma SameDecision(g: Game, a: Agent, cmd: TttCommand, auth: Option<PubKey>)
    requires Related(g, a)
    ensures CheckAgent(a, cmd, auth).None? <==>
            cmd.player == g.current && Check(g, Move(cmd.row, cmd.col), auth).None?
  {
  }

  lemma SameBoardPush(board: Board, players: seq<PubKey>, symbols: map<Square, Symbol>, sq: Square, p: Player)
    requires |players| == 2 && SameBoard(board, players, symbols)
    ensures SameBoard(board[sq := players[IndexOf(p)]], players, symbols[sq := SymbolOf(p)])
  {
    var board', symbols' := board[sq := players[IndexOf(p)]], symbols[sq := SymbolOf(p)];
    assert board'.Keys == board.Keys + {sq} && symbols'.Keys == symbols.Keys + {sq};
  }

  lemma SameBoardPop(board: Board, players: seq<PubKey>, symbols: map<Square, Symbol>, sq: Square)
    requires |players| == 2 && SameBoard(board, players, symbols)
    ensures SameBoard(board - {sq}, players, symbols - {sq})
  {
    assert (board - {sq}).Keys == board.Keys - {sq} && (symbols - {sq}).Keys == symbols.Keys - {sq};
  }

  lemma RoomRelated(g: Game, a: Agent)
    requires Related(g, a) && AgentInv(a)
    ensures
      var (board, history), room := Kept(g), MakeRoom(a);
      && history == room.history && SameBoard(board, g.players, room.board)
      && (room.removed.Some? <==> |g.history| == WINDOW)
      && (room.removed.Some? ==> room.removed.value.square == g.history[0])
  {
    if |g.history| == WINDOW {
      PopCell(a.board, a.history);
      SameBoardPop(g.board, g.players, a.board, g.history[0]);
    }
  }

  lemma PlaceRelated(g: Game, a: Agent, square: Square, time: nat)
    requires AgentInv(a) && Related(g, a)
    ensures Related(Place(g, square, g.players[g.current], time), PlaceAgent(a, square).0)
    ensures
      var removed := PlaceAgent(a, square).1.removed;
      RollbackOf(g, square).removed == if removed.Some? then Some(removed.value.square) else None
  {
    RoomRelated(g, a);
    SameBoardPush(Kept(g).0, g.players, MakeRoom(a).board, square, a.current);
  }

  /** The two rollback objects of one move name the same cell and evict the same cell. */
  ghost predicate SameCells(rg: TTTRollback, ra: TttRollback) {
    && rg.mv == ra.square
    && rg.removed == if ra.removed.Some? then Some(ra.removed.value.square) else None
  }

  lemma InStepPush(g: Game, gs: seq<TTTRollback>, a: Agent, stack: seq<TttRollback>,
                   g': Game, rg: TTTRollback, a': Agent, ra: TttRollback)
    requires InStep(g, gs, a, stack) && Related(g', a') && SameCells(rg, ra)
    requires Rollback(g', rg) == (g, true) && RollbackAgent(a', ra) == (a, true)
    ensures InStep(g', gs + [rg], a', stack + [ra])
  {
    assert (gs + [rg])[..|gs|] == gs && (stack + [ra])[..|stack|] == stack;
  }

  /** One accepted move on both sides: invariants, relation, evicted cell and exact undo. */
  lemma BothMove(g: Game, a: Agent, cmd: TttCommand, auth: Option<PubKey>, md: PayloadMetadata)
    requires Inv(g) && AgentInv(a) && Related(g, a) && cmd.player == g.current
    requires Check(g, Move(cmd.row, cmd.col), auth).None?
    ensures
      var (g', rg), (a', ra) := Execute(g, Move(cmd.row, cmd.col), auth, md), ExecuteAgent(a, cmd, auth, md);
      && rg.Ok? && ra.Ok? && Inv(g') && AgentInv(a') && Related(g', a') && SameCells(rg.value, ra.value)
      && Rollback(g', rg.value) == (g, true) && RollbackAgent(a', ra.value) == (a, true)
  {
    var square: Square := Move(cmd.row, cmd.col);
    SameDecision(g, a, cmd, auth);
    UndoExact(g, square, auth, md);
    AgentUndone(a, cmd, auth, md);
    PlaceRelated(g, a, square, md.acceptingTime);
    assert Execute(g, square, auth, md) == (Place(g, square, auth.value, md.acceptingTime), Ok(RollbackOf(g, square)));
    assert ExecuteAgent(a, cmd, auth, md) == (PlaceAgent(a, square).0, Ok(PlaceAgent(a, square).1));
  }

  /** Both games accept or both refuse, evict the same cell, and stay in step to any depth. */
  lemma Bisimilar(g: Game, gs: seq<TTTRollback>, a: Agent, stack: seq<TttRollback>,
                  cmd: TttCommand, auth: Option<PubKey>, md: PayloadMetadata)
    requires Inv(g) && AgentInv(a) && InStep(g, gs, a, stack)
    requires cmd.player == g.current
    ensures
      var (g', rg), (a', ra) := Execute(g, Move(cmd.row, cmd.col), auth, md), ExecuteAgent(a, cmd, auth, md);
      && (rg.Ok? <==> ra.Ok?)
      && (rg.Ok? ==> Inv(g') && AgentInv(a') && InStep(g', gs + [rg.value], a', stack + [ra.value]))
  {
    if Check(g, Move(cmd.row, cmd.col), auth).None? {
      BothMove(g, a, cmd, auth, md);
      var (g', rg) := Execute(g, Move(cmd.row, cmd.col), auth, md);
      var (a', ra) := ExecuteAgent(a, cmd, auth, md);
      InStepPush(g, gs, a, stack, g', rg.value, a', ra.value);
    } else {
      SameDecision(g, a, cmd, auth);
    }
  }

  /** Whole runs of moves and rollbacks on both sides. In the second game a move names its player:
      the one to move. */

  datatype BothOp = Play(row: Byte, col: Byte, auth: Option<PubKey>, md: PayloadMetadata) | TakeBack

  datatype Pair = Pair(g: Game, gs: seq<TTTRollback>, a: Agent, stack: seq<TttRollback>)

  /** The next pair, and whether each game accepted or succeeded. */
  function RunBoth(x: Pair, op: BothOp): (Pair, bool, bool) {
    match op
    case Play(row, col, auth, md) =>
      var (g', rg) := Execute(x.g, Move(row, col), auth, md);
      var (a', ra) := ExecuteAgent(x.a, MoveTo(row, col, PlayerByte(x.a.current)), auth, md);
      (Pair(g', if rg.Ok? then x.gs + [rg.value] else x.gs, a', if ra.Ok? then x.stack + [ra.value] else x.stack),
       rg.Ok?, ra.Ok?)
    case TakeBack =>
      if x.gs == [] || x.stack == [] then (x, x.gs == [], x.stack == [])
      else
        var (g', okG) := Rollback(x.g, x.gs[|x.gs| - 1]);
        var (a', okA) := RollbackAgent(x.a, x.stack[|x.stack| - 1]);
        (Pair(g', x.gs[..|x.gs| - 1], a', x.stack[..|x.stack| - 1]), okG, okA)
  }

  function RunAllBoth(x: Pair, ops: seq<BothOp>): (Pair, seq<bool>, seq<bool>)
    decreases |ops|
  {
    if ops == [] then (x, [], [])
    else
      var (x1, g1, a1) := RunBoth(x, ops[0]);
      var (x2, gs, as_) := RunAllBoth(x1, ops[1..]);
      (x2, [g1] + gs, [a1] + as_)
  }

  /** Both games are well, now and after any number of rollbacks. */
  ghost predicate WellBelow(g: Game, gs: seq<TTTRollback>, a: Agent, stack: seq<TttRollback>)
    decreases |gs|
  {
    && Inv(g) && AgentInv(a)
    && (gs != [] && stack != [] ==>
          WellBelow(Rollback(g, gs[|gs| - 1]).0, gs[..|gs| - 1],
                    RollbackAgent(a, stack[|stack| - 1]).0, stack[..|stack| - 1]))
  }

  ghost predicate PairOk(x: Pair) {
    InStep(x.g, x.gs, x.a, x.stack) && WellBelow(x.g, x.gs, x.a, x.stack)
  }

  lemma WellPush(g: Game, gs: seq<TTTRollback>, a: Agent, stack: seq<TttRollback>,
                 g': Game, rg: TTTRollback, a': Agent, ra: TttRollback)
    requires WellBelow(g, gs, a, stack) && Inv(g') && AgentInv(a')
    requires Rollback(g', rg).0 == g && RollbackAgent(a', ra).0 == a
    ensures WellBelow(g', gs + [rg], a', stack + [ra])
  {
    assert (gs + [rg])[..|gs|] == gs && (stack + [ra])[..|stack|] == stack;
  }

  lemma PlayInStep(x: Pair, row: Byte, col: Byte, auth: Option<PubKey>, md: PayloadMetadata)
    requires PairOk(x)
    ensures
      var (x', g, a) := RunBoth(x, Play(row, col, auth, md));
      g == a && PairOk(x')
  {
    var cmd := MoveTo(row, col, PlayerByte(x.a.current));
    SameDecision(x.g, x.a, cmd, auth);
    if Check(x.g, Move(row, col), auth).None? {
      BothMove(x.g, x.a, cmd, auth, md);
      var (g', rg) := Execute(x.g, Move(row, col), auth, md);
      var (a', ra) := ExecuteAgent(x.a, cmd, auth, md);
      PairPush(x, g', rg.value, a', ra.value);
    }
  }

  lemma PairPush(x: Pair, g': Game, rg: TTTRollback, a': Agent, ra: TttRollback)
    requires PairOk(x) && Inv(g') && AgentInv(a') && Related(g', a') && SameCells(rg, ra)
    requires Rollback(g', rg) == (x.g, true) && RollbackAgent(a', ra) == (x.a, true)
    ensures PairOk(Pair(g', x.gs + [rg], a', x.stack + [ra]))
  {
    InStepPush(x.g, x.gs, x.a, x.stack, g', rg, a', ra);
    WellPush(x.g, x.gs, x.a, x.stack, g', rg, a', ra);
  }

  lemma TakeBackInStep(x: Pair)
    requires PairOk(x)
    ensures
      var (x', g, a) := RunBoth(x, TakeBack);
      g == a && PairOk(x')
  {
  }

  lemma {:induction false} StaysInStep(x: Pair, ops: seq<BothOp>)
    requires PairOk(x)
    ensures
      var (x', g, a) := RunAllBoth(x, ops);
      g == a && PairOk(x')
    decreases |ops|
  {
    if ops != [] {
      match ops[0] {
        case Play(row, col, auth, md) => PlayInStep(x, row, col, auth, md);
        case TakeBack => TakeBackInStep(x);
      }
      StaysInStep(RunBoth(x, ops[0]).0, ops[1..]);
    }
  }

  /** From freshly initialised games of two participants: whatever moves and rollbacks follow, the two
      implementations take the same decision on each and end in related states. */
  lemma BisimilarRuns(participants: seq<PubKey>, md: PayloadMetadata, ops: seq<BothOp>)
    requires |participants| == 2
    ensures
      var start := Pair(Initialize(participants, md), [], InitializeAgent(participants, md), []);
      var (x, g, a) := RunAllBoth(start, ops);
      g == a && Related(x.g, x.a)
  {
    InitiallyInStep(participants, md);
    InitializeInv(participants, md);
    StaysInStep(Pair(Initialize(participants, md), [], InitializeAgent(participants, md), []), ops);
  }
}

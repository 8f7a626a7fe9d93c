/** The engine theorems, for the episodes that honour the undo contract. */
module Instances {
  import opened Episodes
  import opened EngineSpec
  import opened EngineReorg
  import opened EngineSlices
  import opened EngineTransparency
  import opened EngineChain
  import opened EngineEpisodes
  import opened MerchantEngine
  import opened MerchantReorgs
  import opened MerchantForks
  import opened MerchantLife
  import opened EngineLife
  import Listener
  import Payloads
  import Proxy
  import TicTacToe
  import TicTacToeGrid
  import AgentTicTacToe
  import Merchant
  import MerchantInvariants
  import MerchantUndo
  import CommentBoard
  import BondAccounting
  import EngineStacks

  /** A game created for one or two players: a fork, accepted and reverted, leaves all that concerns
      it exactly as it was if and only if it triggers no filtering. Nothing is asked of other games. */
  lemma GameReorg(
    h: Host<TicTacToe.Game, TicTacToe.Move, TicTacToe.TTTRollback, TicTacToe.TTTError>,
    before: seq<EngineMsg>, fork: seq<Block>, id: EpisodeId)
    requires h.ep == TicTacToe.Impl() && Fresh(Run(h, Initial(), before).revertMap.Keys, fork)
    requires AdmissibleMsgs(h, TicTacToe.Rules(), SliceMsgs(h, before, id))
    requires AdmissibleBlocks(h, TicTacToe.Rules(), SliceChain(h, fork, id))
    ensures
      var e := Run(h, Initial(), before);
      Slice(Run(h, e, Accepts(fork) + Reverts(fork)), id) == Slice(e, id) <==> Quiet(e.nextFiltering, fork)
  {
    TicTacToe.GameUndoes();
    var k := TicTacToe.Rules();
    var e := Run(h, Initial(), before);
    EpisodesDoNotInterfere(h, Initial(), before, id);
    InitialSlice<TicTacToe.Game, TicTacToe.TTTRollback>(id);
    RunSound(h, k, Initial(), SliceMsgs(h, before, id));
    ForkInvisibleToEpisode(h, k, e, fork, id);
    SameByEquality(k, Slice(Run(h, e, Accepts(fork) + Reverts(fork)), id), Slice(e, id));
  }

  /** With equality as sameness, agreement of engines is equality. */
  lemma SameByEquality<S(!new), R>(k: Contract<S>, e: State<S, R>, f: State<S, R>)
    requires forall s, t :: k.same(s, t) <==> s == t
    ensures SameState(k, e, f) <==> e == f
  {
    if SameState(k, e, f) {
      forall id | id in e.episodes ensures e.episodes[id] == f.episodes[id] {
        assert k.same(e.episodes[id].episode, f.episodes[id].episode);
      }
      assert e.episodes == f.episodes;
    }
  }

  /** In every state of an engine of games, whoever plays and however many: no game that has players
      polls as a draw, and each pending rollback of each game succeeds. */
  lemma GamesNeverDrawn(
    h: Host<TicTacToe.Game, TicTacToe.Move, TicTacToe.TTTRollback, TicTacToe.TTTError>,
    msgs: seq<EngineMsg>, id: EpisodeId)
    requires h.ep == TicTacToe.Impl() && id in Run(h, Initial(), msgs).episodes
    ensures
      var w := Run(h, Initial(), msgs).episodes[id];
      && (w.episode.players != [] ==> TicTacToe.Consistent(w.episode) && !TicTacToe.Poll(w.episode).Draw?)
      && RollbackAll(h.ep, w.episode, w.stack).1
  {
    TicTacToeGrid.GamesKeepPending();
    EngineStacks.RunTied(h, TicTacToeGrid.Pending, Initial(), msgs);
    var w := Run(h, Initial(), msgs).episodes[id];
    assert TicTacToeGrid.Pending(w.episode, w.stack);
    TicTacToeGrid.PendingSucceeds(w.episode, w.stack);
    if w.episode.players != [] {
      TicTacToe.NeverDraw(w.episode);
    }
  }

  /** Merchants over one database: in every state of a run whose creations name one merchant, its
      indices agree with its invoices, each pending rollback succeeds, and the tables would load it. */
  lemma MerchantsAgree(d: Desk, tables: Merchant.Tables, msgs: seq<EngineMsg>, m: EpisodeId)
    requires MerchantInvariants.TablesOk(tables) && RunCreatesOnly(d, m, msgs)
    requires m in ShopRun(d, Opened(tables), msgs).engine.episodes
    ensures
      var x := ShopRun(d, Opened(tables), msgs);
      var w := x.engine.episodes[m];
      && MerchantInvariants.Inv(w.episode)
      && RollbackAll(MerchantUndo.Impl(x.tables), w.episode, w.stack).1
      && Merchant.Load(w.episode.merchantKeys, x.tables) == w.episode
  {
    OpenedOk(d, m, tables);
    OneMerchantAgrees(d, m, Opened(tables), msgs);
    LiveMerchant(d, m, ShopRun(d, Opened(tables), msgs));
  }

  /** A live merchant: after any run, a fork that is accepted and reverted leaves engine and database as
      they were, up to `lastUpdate`, the order of subscription lists and the clock, if and only if the
      merchant is not too old at any filtering the fork triggers. */
  lemma MerchantReorg(
    d: Desk, tables: Merchant.Tables, before: seq<EngineMsg>, fork: seq<Block>, m: EpisodeId)
    requires MerchantInvariants.TablesOk(tables) && RunCreatesOnly(d, m, before)
    requires
      var e := ShopRun(d, Opened(tables), before).engine;
      m in e.episodes && Fresh(e.revertMap.Keys, fork)
    requires forall b :: b in fork ==> BlockCreatesOnly(d, m, b)
    ensures
      var x := ShopRun(d, Opened(tables), before);
      m in x.engine.creationTimes &&
      (Agree(ShopRun(d, x, Accepts(fork) + Reverts(fork)), x) <==>
       Outlives(x.engine.creationTimes[m], x.engine.nextFiltering, fork))
  {
    OpenedOk(d, m, tables);
    OneMerchantAgrees(d, m, Opened(tables), before);
    ForkInvisibleToMerchant(d, m, ShopRun(d, Opened(tables), before), fork);
  }

  /** The second game accepts every participant list, so its engines need no such premise. */
  lemma AgentReorg(
    h: Host<AgentTicTacToe.Agent, AgentTicTacToe.TttCommand, AgentTicTacToe.TttRollback, AgentTicTacToe.TicTacToeError>,
    before: seq<EngineMsg>, fork: seq<Block>)
    requires h.ep == AgentTicTacToe.AgentImpl()
    requires Fresh(Run(h, Initial(), before).revertMap.Keys, fork)
    ensures
      var e := Run(h, Initial(), before);
      Run(h, e, Accepts(fork) + Reverts(fork)) == e <==> Quiet(e.nextFiltering, fork)
  {
    AgentTicTacToe.AgentUndoes();
    var k := AgentTicTacToe.AgentRules();
    assert forall tx :: AdmissibleTx(h, k, tx);
    RunSound(h, k, Initial(), before);
    var e := Run(h, Initial(), before);
    ForkInvisibleIffQuiet(h, k, e, fork);
    SameByEquality(k, Run(h, e, Accepts(fork) + Reverts(fork)), e);
  }

  function BoardImpl(rules: CommentBoard.RoomRules)
    : Episode<CommentBoard.Board, CommentBoard.ContractCommand, CommentBoard.ContractRollback,
      CommentBoard.ContractError>
  {
    Episode((ps, md) => CommentBoard.Initialize(rules, md), CommentBoard.Execute, CommentBoard.Rollback)
  }

  /** Boards are not handed back by rollback, yet in every state of an engine of boards, whatever
      it accepts and reverts, the books of every live board balance with its pending rollbacks. */
  lemma BoardsBalanced(
    h: Host<CommentBoard.Board, CommentBoard.ContractCommand, CommentBoard.ContractRollback,
      CommentBoard.ContractError>,
    rules: CommentBoard.RoomRules, msgs: seq<EngineMsg>, id: EpisodeId)
    requires h.ep == BoardImpl(rules)
    requires id in Run(h, Initial(), msgs).episodes
    ensures
      var w := Run(h, Initial(), msgs).episodes[id];
      BondAccounting.Books(w.episode, w.stack)
  {
    ghost var tie: EngineStacks.Tie<CommentBoard.Board, CommentBoard.ContractRollback> :=
      (b, stack) => BondAccounting.Books(b, stack);
    forall ps, md ensures tie(h.ep.initialize(ps, md), []) {
      BondAccounting.InitiallyBalanced(rules, md);
    }
    forall b, stack, c, a, md | tie(b, stack) ensures EngineStacks.TiedByExecute(h.ep, tie, b, stack, c, a, md) {
      BondAccounting.ExecuteBalanced(b, stack, c, a, md);
    }
    forall b, stack | tie(b, stack) ensures EngineStacks.TiedByRollback(h.ep, tie, b, stack) {
      if stack != [] {
        BondAccounting.NeverSaturates(b, stack);
      }
    }
    assert EngineStacks.Keeps(h.ep, tie);
    EngineStacks.RunTied(h, tie, Initial(), msgs);
  }

  /** Games behind the proxy: after any reorganisations, all that concerns a game created for one or
      two players is, the clock apart, exactly what it would be had the engine been sent what it is
      due of the current virtual chain alone, as long as no block sent is more than a lifetime past
      the game's first creation. Nothing is asked of other games. */
  lemma GamesOnChain(
    h: Host<TicTacToe.Game, TicTacToe.Move, TicTacToe.TTTRollback, TicTacToe.TTTError>,
    start: seq<Listener.ChainBlock>, us: seq<Listener.Update>, engines: Proxy.EngineMap, p: Payloads.Prefix,
    lo: nat, id: EpisodeId)
    requires h.ep == TicTacToe.Impl() && p in engines
    requires Listener.Distinct(start) && Listener.Unread(start) && Listener.ReportsAll(start, us)
    requires
      var mine := SliceMsgs(h, Listener.MsgsOfAll(us, engines, p), id);
      AdmissibleMsgs(h, TicTacToe.Rules(), mine) && InWindow(h, lo, mine)
    ensures
      AtClock(Slice(Run(h, Initial(), Listener.Sent(us, engines, p)), id), 0) ==
      AtClock(Slice(Run(h, Initial(), Listener.DueOfChain(start, us, engines, p)), id), 0)
  {
    TicTacToe.GameUndoes();
    var k := TicTacToe.Rules();
    Listener.VirtualChainDeterminesEpisode(h, k, start, us, engines, p, lo, id);
    SameByEquality(k, AtClock(Slice(Run(h, Initial(), Listener.Sent(us, engines, p)), id), 0),
                   AtClock(Slice(Run(h, Initial(), Listener.DueOfChain(start, us, engines, p)), id), 0));
  }

  /** A merchant behind the proxy: engine and database are, up to `lastUpdate`, the order of
      subscription lists and the clock, what they would be had the engine been sent what it is due of
      the current virtual chain alone, as long as creations name one merchant and no block sent is
      more than a lifetime past its first creation. */
  lemma MerchantsOnChain(
    d: Desk, tables: Merchant.Tables, start: seq<Listener.ChainBlock>, us: seq<Listener.Update>,
    engines: Proxy.EngineMap, p: Payloads.Prefix, lo: nat, m: EpisodeId)
    requires MerchantInvariants.TablesOk(tables) && p in engines
    requires Listener.Distinct(start) && Listener.Unread(start) && Listener.ReportsAll(start, us)
    requires RunCreatesOnly(d, m, Listener.MsgsOfAll(us, engines, p))
    requires InWindow(AnyHost(d), lo, Listener.MsgsOfAll(us, engines, p))
    ensures Agree(ShopRun(d, Opened(tables), Listener.Sent(us, engines, p)),
                  ShopRun(d, Opened(tables), Listener.DueOfChain(start, us, engines, p)))
  {
    var msgs := Listener.MsgsOfAll(us, engines, p);
    Listener.SentFollows(AnyHost(d), start, us, engines, p);
    OpenedOk(d, m, tables);
    assert Opened(tables).engine.revertMap.Keys == {};
    ChainDeterminesMerchant(d, m, lo, Opened(tables), msgs);
    ShopRunUntilExit(d, Opened(tables), msgs);
  }

  /** The same at any scores after the merchant's creation: exactly when it is live in the engine and in
      one that was sent what it is due of the current virtual chain, and that the two then agree. */
  lemma MerchantOnChainIff(
    d: Desk, tables: Merchant.Tables, start: seq<Listener.ChainBlock>, us: seq<Listener.Update>,
    engines: Proxy.EngineMap, p: Payloads.Prefix, lo: nat, before: seq<EngineMsg>, after: seq<EngineMsg>, m: EpisodeId)
    requires MerchantInvariants.TablesOk(tables) && p in engines
    requires Listener.Distinct(start) && Listener.Unread(start) && Listener.ReportsAll(start, us)
    requires Listener.MsgsOfAll(us, engines, p) == before + after && Founded(d, m, lo, before, after)
    requires m in ShopRun(d, Opened(tables), before).engine.episodes
    ensures
      var x, y := ShopRun(d, Opened(tables), before), ShopRun(d, Opened(tables), Accepts(ChainAfter([], before)));
      var actual := ShopRun(d, Opened(tables), Listener.Sent(us, engines, p));
      var alone := ShopRun(d, Opened(tables), Listener.DueOfChain(start, us, engines, p));
      && m in x.engine.creationTimes
      && var creation := x.engine.creationTimes[m];
      && (m in actual.engine.episodes <==> Outlives(creation, x.engine.nextFiltering, Accepted(after)))
      && (m in alone.engine.episodes <==> Outlives(creation, y.engine.nextFiltering, ChainAfter([], after)))
      && (m in actual.engine.episodes && m in alone.engine.episodes ==> Agree(actual, alone))
  {
    Listener.SentFollows(AnyHost(d), start, us, engines, p);
    FoundedDeterminedIff(d, m, tables, lo, before, after);
    ShopRunUntilExit(d, Opened(tables), before + after);
  }
}

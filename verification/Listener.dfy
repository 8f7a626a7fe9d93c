/** What the proxy (kdapp/src/proxy.rs) tells each engine about the node's virtual chain, over whole
    runs of updates, and what the engines then hold. */
module Listener {
  import opened Wrappers
  import opened Primitives
  import opened Sequences
  import opened Episodes
  import opened EngineSpec
  import opened EngineReorg
  import opened EngineSlices
  import opened EngineTransparency
  import opened EngineChain
  import opened EngineEpisodes
  import opened EngineLife
  import opened EngineBirth
  import opened Payloads
  import opened Proxy

  /** A block of the virtual chain: the ids it accepted, coinbase first, and its merged blocks, or
      None when it could not be read. `timestamp` is in milliseconds. */
  datatype ChainBlock = ChainBlock(
    hash: Hash, daa: nat, timestamp: nat, ids: seq<Hash>, fetched: Option<seq<Option<seq<MergedTx>>>>)

  /** The chain blocks removed since the last update, newest first, and those added, oldest first. */
  datatype Update = Update(removed: seq<Hash>, added: seq<ChainBlock>)

  function ToTxs(items: seq<Delivered>): (txs: seq<Tx>)
    ensures |txs| == |items|
  {
    seq(|items|, i requires 0 <= i < |items| => Tx(items[i].id, items[i].payload, items[i].outputs))
  }

  function AcceptedBlock(cb: ChainBlock, items: seq<Delivered>): Block {
    Block(cb.hash, cb.daa, cb.timestamp / 1000, ToTxs(items))
  }

  /** The block an engine is sent for a chain block: its hash and score, its time in whole seconds, and
      the delivered transactions in order, with their ids, stripped payloads and outputs. */
  lemma BlockSent(cb: ChainBlock, items: seq<Delivered>)
    ensures
      var b := AcceptedBlock(cb, items);
      && b.hash == cb.hash && b.daa == cb.daa && 1000 * b.time <= cb.timestamp < 1000 * b.time + 1000
      && |b.txs| == |items|
      && forall i :: 0 <= i < |items| ==>
           b.txs[i].id == items[i].id && b.txs[i].payload == items[i].payload && b.txs[i].outputs == items[i].outputs
  {
  }

  /** What an engine is due of a chain block, told from positions. */
  lemma DueItemsByIndex(cb: ChainBlock, engines: EngineMap, p: Prefix)
    requires p in engines
    ensures
      if cb.fetched.Some? && EverythingMerged(cb.ids, cb.fetched.value, engines)
      then SentByIndex(cb.ids, cb.fetched.value, p, engines[p], DueItems(cb, engines, p))
      else DueItems(cb, engines, p) == []
  {
    if cb.fetched.Some? {
      AllFoundIff(cb.ids, cb.fetched.value, engines);
      DueByIndex(cb.ids, cb.fetched.value, p, engines[p]);
    }
  }

  /** What an engine is due of a chain block; nothing if anything any engine wants is missing. */
  ghost function DueItems(cb: ChainBlock, engines: EngineMap, p: Prefix): seq<Delivered>
    requires p in engines
  {
    if cb.fetched.Some? && AllFound(AfterFirst(cb.ids), Seen(cb.fetched.value), engines)
    then Due(AfterFirst(cb.ids), Seen(cb.fetched.value), p, engines[p]) else []
  }

  ghost function BlocksFor(chain: seq<ChainBlock>, engines: EngineMap, p: Prefix): seq<Block>
    requires p in engines
  {
    if chain == [] then []
    else
      var cb, before := chain[|chain| - 1], BlocksFor(chain[..|chain| - 1], engines, p);
      var items := DueItems(cb, engines, p);
      if items != [] then before + [AcceptedBlock(cb, items)] else before
  }

  function RevertsOf(removed: seq<Hash>): seq<EngineMsg> {
    if removed == [] then [] else [BlkReverted(removed[0])] + RevertsOf(removed[1..])
  }

  /** The messages of one update: an update that adds no block is ignored. */
  ghost function MsgsOf(u: Update, engines: EngineMap, p: Prefix): seq<EngineMsg>
    requires p in engines
  {
    if u.added == [] then [] else RevertsOf(u.removed) + Accepts(BlocksFor(u.added, engines, p))
  }

  /** What has been sent to each engine. */
  type Outbox = map<Prefix, seq<EngineMsg>>

  /** Sends one message to every engine. */
  method Broadcast(sent: Outbox, engines: EngineMap, msg: EngineMsg) returns (sent': Outbox)
    requires sent.Keys == engines.Keys
    ensures sent'.Keys == engines.Keys && forall p :: p in engines ==> sent'[p] == sent[p] + [msg]
  {
    sent' := sent;
    var todo := engines.Keys;
    while todo != {}
      invariant todo <= engines.Keys && sent'.Keys == engines.Keys
      invariant forall p :: p in engines ==> sent'[p] == if p in todo then sent[p] else sent[p] + [msg]
    {
      var p :| p in todo;
      sent' := sent'[p := sent'[p] + [msg]];
      todo := todo - {p};
    }
  }

  lemma {:induction false} RevertsPush(removed: seq<Hash>, hash: Hash)
    ensures RevertsOf(removed + [hash]) == RevertsOf(removed) + [BlkReverted(hash)]
  {
    if removed == [] {
      assert ([] + [hash])[1..] == [];
    } else {
      assert (removed + [hash])[1..] == removed[1..] + [hash];
      RevertsPush(removed[1..], hash);
    }
  }

  method SendReverts(removed: seq<Hash>, engines: EngineMap, sent: Outbox) returns (sent': Outbox)
    requires sent.Keys == engines.Keys
    ensures sent'.Keys == engines.Keys
    ensures forall p :: p in engines ==> sent'[p] == sent[p] + RevertsOf(removed)
  {
    sent' := sent;
    for i := 0 to |removed|
      invariant sent'.Keys == engines.Keys
      invariant forall p :: p in engines ==> sent'[p] == sent[p] + RevertsOf(removed[..i])
    {
      sent' := Broadcast(sent', engines, BlkReverted(removed[i]));
      assert removed[..i + 1] == removed[..i] + [removed[i]];
      RevertsPush(removed[..i], removed[i]);
    }
    assert removed[..|removed|] == removed;
  }

  method SendBlocks(added: seq<ChainBlock>, engines: EngineMap, sent: Outbox) returns (sent': Outbox)
    requires sent.Keys == engines.Keys
    ensures sent'.Keys == engines.Keys
    ensures forall p :: p in engines ==> sent'[p] == sent[p] + Accepts(BlocksFor(added, engines, p))
  {
    sent' := sent;
    for i := 0 to |added|
      invariant sent'.Keys == engines.Keys
      invariant forall p :: p in engines ==> sent'[p] == sent[p] + Accepts(BlocksFor(added[..i], engines, p))
    {
      ghost var before := sent';
      sent' := SendBlock(added[i], engines, sent');
      forall p | p in engines ensures sent'[p] == sent[p] + Accepts(BlocksFor(added[..i + 1], engines, p)) {
        OneBlockSent(sent[p], before[p], sent'[p], added, i, engines, p);
      }
    }
    assert added[..|added|] == added;
  }

  lemma OneBlockSent(start: seq<EngineMsg>, before: seq<EngineMsg>, after: seq<EngineMsg>,
                     added: seq<ChainBlock>, i: nat, engines: EngineMap, p: Prefix)
    requires i < |added| && p in engines && before == start + Accepts(BlocksFor(added[..i], engines, p))
    requires after == before + MsgsFor(added[i], DueItems(added[i], engines, p))
    ensures after == start + Accepts(BlocksFor(added[..i + 1], engines, p))
  {
    BlocksPush(added, i, engines, p);
    Regroup(start, Accepts(BlocksFor(added[..i], engines, p)), MsgsFor(added[i], DueItems(added[i], engines, p)));
  }

  /** Handling one update: reverts to every engine, then each added block to the engines it concerns. */
  method HandleUpdate(u: Update, engines: EngineMap, sent: Outbox) returns (sent': Outbox)
    requires sent.Keys == engines.Keys
    ensures sent'.Keys == engines.Keys
    ensures forall p :: p in engines ==> sent'[p] == sent[p] + MsgsOf(u, engines, p)
  {
    if |u.added| == 0 {
      return sent;
    }
    sent' := SendReverts(u.removed, engines, sent);
    sent' := SendBlocks(u.added, engines, sent');
  }

  lemma BlocksPush(added: seq<ChainBlock>, i: nat, engines: EngineMap, p: Prefix)
    requires i < |added| && p in engines
    ensures Accepts(BlocksFor(added[..i + 1], engines, p)) ==
            Accepts(BlocksFor(added[..i], engines, p)) + MsgsFor(added[i], DueItems(added[i], engines, p))
  {
    assert added[..i + 1][..i] == added[..i];
    SentPush(BlocksFor(added[..i], engines, p), added[i], DueItems(added[i], engines, p));
  }

  function MsgsFor(cb: ChainBlock, items: seq<Delivered>): seq<EngineMsg> {
    if items != [] then [BlkAccepted(AcceptedBlock(cb, items))] else []
  }

  lemma SentPush(blocks: seq<Block>, cb: ChainBlock, items: seq<Delivered>)
    ensures Accepts(if items != [] then blocks + [AcceptedBlock(cb, items)] else blocks) ==
            Accepts(blocks) + MsgsFor(cb, items)
  {
    if items != [] {
      AcceptsPush(blocks, AcceptedBlock(cb, items));
    }
  }

  /** Routes one added block and sends each engine its share, if it has one. */
  method SendBlock(cb: ChainBlock, engines: EngineMap, sent: Outbox) returns (sent': Outbox)
    requires sent.Keys == engines.Keys
    ensures sent'.Keys == engines.Keys
    ensures forall p :: p in engines ==> sent'[p] == sent[p] + MsgsFor(cb, DueItems(cb, engines, p))
  {
    var routed := RouteBlock(cb.ids, cb.fetched, engines);
    sent' := sent;
    var todo := routed.Keys;
    while todo != {}
      invariant todo <= routed.Keys && sent'.Keys == engines.Keys
      invariant forall p :: p in engines ==>
        sent'[p] == if p in routed && p !in todo then sent[p] + MsgsFor(cb, routed[p]) else sent[p]
    {
      var p :| p in todo;
      sent' := sent'[p := sent'[p] + [BlkAccepted(AcceptedBlock(cb, routed[p]))]];
      todo := todo - {p};
    }
  }

  /** Runs of updates. */

  function HashesIn(chain: seq<ChainBlock>): set<Hash> {
    if chain == [] then {} else HashesIn(chain[..|chain| - 1]) + {chain[|chain| - 1].hash}
  }

  /** The hashes are those of the newest blocks, newest first. */
  ghost predicate NewestFirst(chain: seq<ChainBlock>, removed: seq<Hash>)
    decreases |removed|
  {
    removed != [] ==>
      chain != [] && removed[0] == chain[|chain| - 1].hash && NewestFirst(chain[..|chain| - 1], removed[1..])
  }

  ghost predicate Distinct(chain: seq<ChainBlock>)
    decreases |chain|
  {
    chain != [] ==>
      chain[|chain| - 1].hash !in HashesIn(chain[..|chain| - 1]) && Distinct(chain[..|chain| - 1])
  }

  /** The update is a true report about the virtual chain, whose blocks stay distinct. */
  ghost predicate Reports(chain: seq<ChainBlock>, u: Update) {
    && (u.added == [] ==> u.removed == [])
    && |u.removed| <= |chain| && NewestFirst(chain, u.removed)
    && Distinct(Updated(chain, u))
  }

  function Updated(chain: seq<ChainBlock>, u: Update): seq<ChainBlock>
    requires |u.removed| <= |chain|
  {
    chain[..|chain| - |u.removed|] + u.added
  }

  ghost predicate ReportsAll(chain: seq<ChainBlock>, us: seq<Update>)
    decreases |us|
  {
    us != [] ==> Reports(chain, us[0]) && ReportsAll(Updated(chain, us[0]), us[1..])
  }

  ghost function UpdatedAll(chain: seq<ChainBlock>, us: seq<Update>): seq<ChainBlock>
    requires ReportsAll(chain, us)
    decreases |us|
  {
    if us == [] then chain else UpdatedAll(Updated(chain, us[0]), us[1..])
  }

  ghost function MsgsOfAll(us: seq<Update>, engines: EngineMap, p: Prefix): seq<EngineMsg>
    requires p in engines
    decreases |us|
  {
    if us == [] then [] else MsgsOf(us[0], engines, p) + MsgsOfAll(us[1..], engines, p)
  }

  /** The listening loop over the updates the node reports, and the farewell when it ends. */
  method Listen(us: seq<Update>, engines: EngineMap) returns (sent: Outbox)
    ensures sent.Keys == engines.Keys
    ensures forall p :: p in engines ==> sent[p] == MsgsOfAll(us, engines, p) + [Exit]
  {
    sent := map p | p in engines :: [];
    AllStillToSend(us, engines);
    for i := 0 to |us|
      invariant sent.Keys == engines.Keys
      invariant forall p :: p in engines ==> sent[p] + MsgsOfAll(us[i..], engines, p) == MsgsOfAll(us, engines, p)
    {
      ghost var before := sent;
      sent := HandleUpdate(us[i], engines, sent);
      forall p | p in engines ensures sent[p] + MsgsOfAll(us[i + 1..], engines, p) == MsgsOfAll(us, engines, p) {
        OneUpdateSent(before[p], us, i, engines, p);
      }
    }
    sent := Broadcast(sent, engines, Exit);
  }

  lemma OneUpdateSent(before: seq<EngineMsg>, us: seq<Update>, i: nat, engines: EngineMap, p: Prefix)
    requires i < |us| && p in engines
    ensures before + MsgsOf(us[i], engines, p) + MsgsOfAll(us[i + 1..], engines, p) ==
      before + MsgsOfAll(us[i..], engines, p)
  {
    assert us[i..][0] == us[i] && us[i..][1..] == us[i + 1..];
    Regroup(before, MsgsOf(us[i], engines, p), MsgsOfAll(us[i + 1..], engines, p));
  }

  lemma AllStillToSend(us: seq<Update>, engines: EngineMap)
    ensures forall p :: p in engines ==> [] + MsgsOfAll(us[0..], engines, p) == MsgsOfAll(us, engines, p)
  {
    assert us[0..] == us;
  }

  lemma {:induction false} FollowsConcat(chain: seq<Block>, a: seq<EngineMsg>, b: seq<EngineMsg>)
    requires FollowsAll({}, chain, a) && FollowsAll({}, ChainAfter(chain, a), b)
    ensures FollowsAll({}, chain, a + b) && ChainAfter(chain, a + b) == ChainAfter(ChainAfter(chain, a), b)
    decreases |a|
  {
    if a == [] {
      assert a + b == b;
    } else {
      assert (a + b)[1..] == a[1..] + b;
      FollowsConcat(Next(chain, a[0]), a[1..], b);
    }
  }

  lemma {:induction false} BlocksAreOfChain(chain: seq<ChainBlock>, engines: EngineMap, p: Prefix)
    requires p in engines
    ensures HashesOf(BlocksFor(chain, engines, p)) <= HashesIn(chain)
    decreases |chain|
  {
    if chain != [] {
      var cb, before := chain[|chain| - 1], BlocksFor(chain[..|chain| - 1], engines, p);
      BlocksAreOfChain(chain[..|chain| - 1], engines, p);
      var items := DueItems(cb, engines, p);
      assert (before + [AcceptedBlock(cb, items)])[..|before|] == before;
    }
  }

  /** Removed blocks take the engine's newest block away, or are blocks it was never sent. */
  lemma {:induction false} RevertsFollow(
    chain: seq<ChainBlock>, removed: seq<Hash>, kept: seq<ChainBlock>, engines: EngineMap, p: Prefix)
    requires p in engines && Distinct(chain) && NewestFirst(chain, removed)
    requires |removed| <= |chain| && kept == chain[..|chain| - |removed|]
    ensures FollowsAll({}, BlocksFor(chain, engines, p), RevertsOf(removed))
    ensures ChainAfter(BlocksFor(chain, engines, p), RevertsOf(removed)) == BlocksFor(kept, engines, p)
    decreases |removed|
  {
    if removed == [] {
      assert chain[..|chain|] == chain;
    } else {
      PrefixOfPrefix(chain, |chain| - 1, |kept|);
      RevertsFollow(chain[..|chain| - 1], removed[1..], kept, engines, p);
      NextReverted(chain, engines, p);
      FollowsCons(BlocksFor(chain, engines, p), BlkReverted(removed[0]), RevertsOf(removed[1..]));
    }
  }

  lemma FollowsCons(chain: seq<Block>, msg: EngineMsg, msgs: seq<EngineMsg>)
    requires Follows({}, chain, msg) && FollowsAll({}, Next(chain, msg), msgs)
    ensures FollowsAll({}, chain, [msg] + msgs) && ChainAfter(chain, [msg] + msgs) == ChainAfter(Next(chain, msg), msgs)
  {
    assert ([msg] + msgs)[1..] == msgs;
  }

  lemma NextReverted(chain: seq<ChainBlock>, engines: EngineMap, p: Prefix)
    requires p in engines && chain != [] && Distinct(chain)
    ensures
      var msg := BlkReverted(chain[|chain| - 1].hash);
      && Follows({}, BlocksFor(chain, engines, p), msg)
      && Next(BlocksFor(chain, engines, p), msg) == BlocksFor(chain[..|chain| - 1], engines, p)
  {
    var cb, rest := chain[|chain| - 1], chain[..|chain| - 1];
    BlocksAreOfChain(rest, engines, p);
    TipOf(BlocksFor(rest, engines, p), cb, DueItems(cb, engines, p));
  }

  /** A block that concerns the engine is its newest and comes off again; one that does not is not there. */
  lemma TipOf(blocks: seq<Block>, cb: ChainBlock, items: seq<Delivered>)
    requires cb.hash !in HashesOf(blocks)
    ensures
      var msg, longer := BlkReverted(cb.hash), if items != [] then blocks + [AcceptedBlock(cb, items)] else blocks;
      Follows({}, longer, msg) && Next(longer, msg) == blocks
  {
    if items != [] {
      assert (blocks + [AcceptedBlock(cb, items)])[..|blocks|] == blocks;
    } else if blocks != [] {
      assert blocks[|blocks| - 1].hash in HashesOf(blocks);
    }
  }

  /** A block that concerns the engine is new to it. */
  lemma Extends(blocks: seq<Block>, cb: ChainBlock, items: seq<Delivered>)
    requires cb.hash !in HashesOf(blocks)
    ensures FollowsAll({}, blocks, MsgsFor(cb, items))
    ensures ChainAfter(blocks, MsgsFor(cb, items)) ==
            if items != [] then blocks + [AcceptedBlock(cb, items)] else blocks
  {
    if items != [] {
      var msg := BlkAccepted(AcceptedBlock(cb, items));
      FollowsCons(blocks, msg, []);
      assert [msg] + [] == [msg];
    }
  }

  lemma {:induction false} AddsFollow(chain: seq<ChainBlock>, added: seq<ChainBlock>, engines: EngineMap, p: Prefix)
    requires p in engines && Distinct(chain + added)
    ensures FollowsAll({}, BlocksFor(chain, engines, p), Accepts(BlocksFor(added, engines, p)))
    ensures ChainAfter(BlocksFor(chain, engines, p), Accepts(BlocksFor(added, engines, p))) ==
            BlocksFor(chain + added, engines, p)
    decreases |added|
  {
    if added == [] {
      assert chain + added == chain;
    } else {
      var cb, shorter := added[|added| - 1], added[..|added| - 1];
      assert (chain + added)[..|chain + added| - 1] == chain + shorter;
      AddsFollow(chain, shorter, engines, p);
      var items := DueItems(cb, engines, p);
      SentPush(BlocksFor(shorter, engines, p), cb, items);
      BlocksAreOfChain(chain + shorter, engines, p);
      Extends(BlocksFor(chain + shorter, engines, p), cb, items);
      FollowsConcat(BlocksFor(chain, engines, p), Accepts(BlocksFor(shorter, engines, p)), MsgsFor(cb, items));
    }
  }

  lemma EmptyUpdate(chain: seq<ChainBlock>, u: Update)
    requires u.added == [] && u.removed == []
    ensures Updated(chain, u) == chain
  {
    Whole(chain);
  }

  lemma FullUpdate(
    chain: seq<ChainBlock>, removed: seq<Hash>, kept: seq<ChainBlock>, added: seq<ChainBlock>,
    engines: EngineMap, p: Prefix)
    requires p in engines && Distinct(chain) && NewestFirst(chain, removed)
    requires |removed| <= |chain| && kept == chain[..|chain| - |removed|] && Distinct(kept + added)
    ensures
      var blocks, msgs := BlocksFor(chain, engines, p), RevertsOf(removed) + Accepts(BlocksFor(added, engines, p));
      FollowsAll({}, blocks, msgs) && ChainAfter(blocks, msgs) == BlocksFor(kept + added, engines, p)
  {
    RevertsFollow(chain, removed, kept, engines, p);
    AddsFollow(kept, added, engines, p);
    FollowsConcat(BlocksFor(chain, engines, p), RevertsOf(removed), Accepts(BlocksFor(added, engines, p)));
  }

  /** One true report keeps the engine's chain in step with the virtual chain. */
  lemma UpdateFollows(chain: seq<ChainBlock>, u: Update, engines: EngineMap, p: Prefix)
    requires p in engines && Distinct(chain) && Reports(chain, u)
    ensures FollowsAll({}, BlocksFor(chain, engines, p), MsgsOf(u, engines, p))
    ensures ChainAfter(BlocksFor(chain, engines, p), MsgsOf(u, engines, p)) == BlocksFor(Updated(chain, u), engines, p)
  {
    if u.added == [] {
      EmptyUpdate(chain, u);
    } else {
      NonEmptyUpdate(chain, u, engines, p);
    }
  }

  lemma NonEmptyUpdate(chain: seq<ChainBlock>, u: Update, engines: EngineMap, p: Prefix)
    requires p in engines && Distinct(chain) && Reports(chain, u) && u.added != []
    ensures FollowsAll({}, BlocksFor(chain, engines, p), MsgsOf(u, engines, p))
    ensures ChainAfter(BlocksFor(chain, engines, p), MsgsOf(u, engines, p)) == BlocksFor(Updated(chain, u), engines, p)
  {
    FullUpdate(chain, u.removed, chain[..|chain| - |u.removed|], u.added, engines, p);
  }

  lemma {:induction false} UpdatesFollow(chain: seq<ChainBlock>, us: seq<Update>, engines: EngineMap, p: Prefix)
    requires p in engines && Distinct(chain) && ReportsAll(chain, us)
    ensures FollowsAll({}, BlocksFor(chain, engines, p), MsgsOfAll(us, engines, p))
    ensures ChainAfter(BlocksFor(chain, engines, p), MsgsOfAll(us, engines, p)) ==
      BlocksFor(UpdatedAll(chain, us), engines, p)
    decreases |us|
  {
    if us != [] {
      UpdateFollows(chain, us[0], engines, p);
      UpdatesFollow(Updated(chain, us[0]), us[1..], engines, p);
      FollowsConcat(BlocksFor(chain, engines, p), MsgsOf(us[0], engines, p), MsgsOfAll(us[1..], engines, p));
    }
  }

  /** The blocks of the virtual chain from before the proxy listened: it never reads them. */
  predicate Unread(chain: seq<ChainBlock>) {
    chain != [] ==> chain[|chain| - 1].fetched.None? && Unread(chain[..|chain| - 1])
  }

  lemma {:induction false} UnreadIsNotSent(chain: seq<ChainBlock>, engines: EngineMap, p: Prefix)
    requires p in engines && Unread(chain)
    ensures BlocksFor(chain, engines, p) == []
    decreases |chain|
  {
    if chain != [] {
      UnreadIsNotSent(chain[..|chain| - 1], engines, p);
    }
  }

  /** What the proxy sends an engine, and what the engine is due of the current virtual chain. */

  ghost function Sent(us: seq<Update>, engines: EngineMap, p: Prefix): seq<EngineMsg>
    requires p in engines
  {
    MsgsOfAll(us, engines, p) + [Exit]
  }

  ghost function DueOfChain(start: seq<ChainBlock>, us: seq<Update>, engines: EngineMap, p: Prefix): seq<EngineMsg>
    requires p in engines && ReportsAll(start, us)
  {
    Accepts(BlocksFor(UpdatedAll(start, us), engines, p))
  }

  lemma SentFollows<S, C, R, E>(
    h: Host<S, C, R, E>, start: seq<ChainBlock>, us: seq<Update>, engines: EngineMap, p: Prefix)
    requires p in engines && Distinct(start) && Unread(start) && ReportsAll(start, us)
    ensures
      var msgs := MsgsOfAll(us, engines, p);
      && FollowsAll({}, [], msgs)
      && Run(h, Initial(), Sent(us, engines, p)) == Run(h, Initial(), msgs)
      && DueOfChain(start, us, engines, p) == Accepts(ChainAfter([], msgs))
  {
    var msgs := MsgsOfAll(us, engines, p);
    UpdatesFollow(start, us, engines, p);
    UnreadIsNotSent(start, engines, p);
    NoExit({}, [], msgs);
    RunConcat(h, Initial(), msgs, [Exit]);
  }

  /** End to end: wherever in the chain the proxy started to listen, and however often the node's
      virtual chain was reorganised since, each engine holds what it would hold had it been sent, in
      order, what it is due of the current virtual chain's blocks and nothing else. The clock apart,
      this holds as long as no block sent is more than a lifetime past the first that creates an
      episode. */
  lemma VirtualChainDetermines<S(!new), C(!new), R(!new), E(!new)>(
    h: Host<S, C, R, E>, k: Contract<S>, start: seq<ChainBlock>, us: seq<Update>, engines: EngineMap, p: Prefix,
    lo: nat)
    requires Undoes(h.ep, k) && p in engines && Distinct(start) && Unread(start) && ReportsAll(start, us)
    requires AdmissibleMsgs(h, k, MsgsOfAll(us, engines, p)) && InWindow(h, lo, MsgsOfAll(us, engines, p))
    ensures SameButClock(k, Run(h, Initial(), Sent(us, engines, p)),
                         Run(h, Initial(), DueOfChain(start, us, engines, p)))
  {
    SentFollows(h, start, us, engines, p);
    CurrentChainDetermines(h, k, lo, MsgsOfAll(us, engines, p));
  }

  /** The same for one episode: it asks only that no block sent is more than a lifetime past the
      first that creates this episode, and nothing of the other episodes. */
  lemma VirtualChainDeterminesEpisode<S(!new), C(!new), R(!new), E(!new)>(
    h: Host<S, C, R, E>, k: Contract<S>, start: seq<ChainBlock>, us: seq<Update>, engines: EngineMap, p: Prefix,
    lo: nat, id: EpisodeId)
    requires Undoes(h.ep, k) && p in engines && Distinct(start) && Unread(start) && ReportsAll(start, us)
    requires
      var mine := SliceMsgs(h, MsgsOfAll(us, engines, p), id);
      AdmissibleMsgs(h, k, mine) && InWindow(h, lo, mine)
    ensures SameButClock(k, Slice(Run(h, Initial(), Sent(us, engines, p)), id),
                         Slice(Run(h, Initial(), DueOfChain(start, us, engines, p)), id))
  {
    SentFollows(h, start, us, engines, p);
    CurrentChainDeterminesEpisode(h, k, lo, MsgsOfAll(us, engines, p), id);
  }

  /** The same at any scores: whatever the proxy sent before the block that began the episode's last
      life, and after it, the exact condition for the episode to be live in the engine, and in one that
      was sent what it is due of the current virtual chain. */
  lemma VirtualChainDeterminesIff<S(!new), C(!new), R(!new), E(!new)>(
    h: Host<S, C, R, E>, k: Contract<S>, start: seq<ChainBlock>, us: seq<Update>, engines: EngineMap, p: Prefix,
    before: seq<EngineMsg>, b: Block, after: seq<EngineMsg>, id: EpisodeId)
    requires Undoes(h.ep, k) && p in engines && Distinct(start) && Unread(start) && ReportsAll(start, us)
    requires MsgsOfAll(us, engines, p) == before + [BlkAccepted(b)] + after && LastLife(h, k, before, b, after, id)
    ensures
      var e, f := Run(h, Initial(), before), Run(h, Initial(), Accepts(ChainAfter([], before)));
      var actual := Run(h, Initial(), Sent(us, engines, p));
      var alone := Run(h, Initial(), DueOfChain(start, us, engines, p));
      && (id in actual.episodes <==> Outlives(b.daa, NextFiltering(e.nextFiltering, b.daa), Accepted(after)))
      && (id in alone.episodes <==> Outlives(b.daa, NextFiltering(f.nextFiltering, b.daa), ChainAfter([], after)))
      && (id in actual.episodes && id in alone.episodes ==>
            SameSince(k, HashesOf(ChainAfter([], before)), Slice(actual, id), Slice(alone, id)))
  {
    SentFollows(h, start, us, engines, p);
    LastLifeDeterminedIff(h, k, before, b, after, id);
  }
}

/** What an episode holds after blocks are accepted, told from the transactions alone: what was
    executed, in which order, for whom, and under which metadata. */
module OnChain {
  import opened Wrappers
  import opened Primitives
  import opened Episodes
  import opened EngineSpec
  import opened EngineFrame
  import opened EngineReorg
  import opened EngineTransparency
  import opened EngineEpisodes

  /** The call a carrier transaction makes on an episode: a parsable command for it, signed by the key
      it names or unsigned, with the block's hash, score and time and the carrier's own id and outputs. */
  function CallIn<S, C, R, E>(h: Host<S, C, R, E>, b: Block, tx: Tx, id: EpisodeId): Option<Call<C>> {
    var md := PayloadMetadata(b.hash, b.daa, b.time, tx.id, tx.outputs);
    match h.parse(tx.payload)
    case Some(SignedCommand(to, cmd, pk, sig)) =>
      if to == id && h.verify(pk, cmd, sig) then Some(Call(cmd, Some(pk), md)) else None
    case Some(UnsignedCommand(to, cmd)) => if to == id then Some(Call(cmd, None, md)) else None
    case _ => None
  }

  function CallsIn<S, C, R, E>(h: Host<S, C, R, E>, b: Block, txs: seq<Tx>, id: EpisodeId): seq<Call<C>> {
    if txs == [] then []
    else
      var last := |txs| - 1;
      var call := CallIn(h, b, txs[last], id);
      CallsIn(h, b, txs[..last], id) + if call.Some? then [call.value] else []
  }

  function CallsInBlocks<S, C, R, E>(h: Host<S, C, R, E>, blocks: seq<Block>, id: EpisodeId): seq<Call<C>> {
    if blocks == [] then []
    else CallsIn(h, blocks[0], blocks[0].txs, id) + CallsInBlocks(h, blocks[1..], id)
  }

  /** An episode, and the rollbacks of its accepted commands on top of those there were. */
  ghost predicate Executed<S, C, R, E>(
    h: Host<S, C, R, E>, e: State<S, R>, id: EpisodeId, start: S, below: seq<R>, calls: seq<Call<C>>)
  {
    var (s, stack) := ExecuteAll(h.ep, start, calls);
    id in e.episodes && e.episodes[id] == Wrapper(s, below + stack)
  }

  lemma ExecuteOneMore<S, C, R, E>(ep: Episode<S, C, R, E>, start: S, calls: seq<Call<C>>, call: Call<C>)
    ensures
      var (s, stack) := ExecuteAll(ep, start, calls);
      var (s', res) := ep.execute(s, call.cmd, call.auth, call.md);
      ExecuteAll(ep, start, calls + [call]) == (s', if res.Ok? then stack + [res.value] else stack)
  {
    assert (calls + [call])[..|calls|] == calls;
  }

  /** One transaction runs the call it makes on the episode, if it makes one, and nothing else. */
  lemma TxExecutes<S, C, R, E>(
    h: Host<S, C, R, E>, e: State<S, R>, b: Block, tx: Tx, id: EpisodeId, start: S, below: seq<R>,
    calls: seq<Call<C>>)
    requires Executed(h, e, id, start, below, calls)
    ensures
      var call := CallIn(h, b, tx, id);
      Executed(h, RunTx(h, e, b, tx).0, id, start, below, calls + if call.Some? then [call.value] else [])
  {
    var call := CallIn(h, b, tx, id);
    if call.Some? {
      ExecuteOneMore(h.ep, start, calls, call.value);
      var (s, stack) := ExecuteAll(h.ep, start, calls);
      var (s', res) := h.ep.execute(s, call.value.cmd, call.value.auth, call.value.md);
      assert res.Ok? ==> below + stack + [res.value] == below + (stack + [res.value]);
    } else {
      assert calls + [] == calls;
    }
  }

  lemma {:induction false} TxsExecute<S, C, R, E>(
    h: Host<S, C, R, E>, e: State<S, R>, b: Block, txs: seq<Tx>, id: EpisodeId, start: S, below: seq<R>,
    calls: seq<Call<C>>)
    requires Executed(h, e, id, start, below, calls)
    ensures Executed(h, RunTxs(h, e, b, txs).0, id, start, below, calls + CallsIn(h, b, txs, id))
    decreases |txs|
  {
    if txs == [] {
      assert calls + [] == calls;
    } else {
      var tx, shorter := txs[|txs| - 1], txs[..|txs| - 1];
      var call, before := CallIn(h, b, tx, id), CallsIn(h, b, shorter, id);
      TxsExecute(h, e, b, shorter, id, start, below, calls);
      TxExecutes(h, RunTxs(h, e, b, shorter).0, b, tx, id, start, below, calls + before);
      assert calls + before + (if call.Some? then [call.value] else []) == calls + CallsIn(h, b, txs, id);
    }
  }

  /** A live episode that outlives the blocks' filterings has executed, after them, the calls their
      transactions make on it, in order, and keeps one rollback for each that it accepted. */
  lemma {:induction false} BlocksExecute<S, C, R, E>(
    h: Host<S, C, R, E>, e: State<S, R>, blocks: seq<Block>, id: EpisodeId, start: S, below: seq<R>,
    calls: seq<Call<C>>)
    requires Matched(e) && Executed(h, e, id, start, below, calls)
    requires Outlives(e.creationTimes[id], e.nextFiltering, blocks)
    ensures Executed(h, Run(h, e, Accepts(blocks)), id, start, below, calls + CallsInBlocks(h, blocks, id))
    decreases |blocks|
  {
    if blocks == [] {
      assert calls + [] == calls;
    } else {
      var b, e0 := blocks[0], Filter(e, blocks[0].daa);
      assert Accepts(blocks)[0] == BlkAccepted(b) && Accepts(blocks)[1..] == Accepts(blocks[1..]);
      assert Executed(h, e0, id, start, below, calls);
      TxsExtend(h, e0, b, b.txs);
      TxsExecute(h, e0, b, b.txs, id, start, below, calls);
      BlocksExecute(h, AcceptBlock(h, e, b), blocks[1..], id, start, below, calls + CallsIn(h, b, b.txs, id));
      assert calls + CallsIn(h, b, b.txs, id) + CallsInBlocks(h, blocks[1..], id)
          == calls + CallsInBlocks(h, blocks, id);
    }
  }

  /** Before its creation, an episode's transactions do nothing. */
  lemma {:induction false} NotYetCreated<S, C, R, E>(
    h: Host<S, C, R, E>, e: State<S, R>, b: Block, txs: seq<Tx>, id: EpisodeId)
    requires id !in e.episodes && NotCreatedIn(h, txs, id)
    ensures id !in RunTxs(h, e, b, txs).0.episodes
  {
    TxsDoNotRevive(h, e, b, txs, id);
  }

  lemma CreatingTx<S, C, R, E>(
    h: Host<S, C, R, E>, e: State<S, R>, b: Block, tx: Tx, id: EpisodeId, ps: seq<PubKey>)
    requires id !in e.episodes && h.parse(tx.payload) == Some(NewEpisode(id, ps))
    ensures
      var start := h.ep.initialize(ps, PayloadMetadata(b.hash, b.daa, b.time, tx.id, tx.outputs));
      Executed(h, RunTx(h, e, b, tx).0, id, start, [], [])
  {
  }

  lemma {:induction false} RunTxsSplit<S, C, R, E>(
    h: Host<S, C, R, E>, e: State<S, R>, b: Block, first: seq<Tx>, second: seq<Tx>)
    ensures RunTxs(h, e, b, first + second).0 == RunTxs(h, RunTxs(h, e, b, first).0, b, second).0
    decreases |second|
  {
    if second == [] {
      assert first + second == first;
    } else {
      var last := |second| - 1;
      assert (first + second)[..|first + second| - 1] == first + second[..last];
      RunTxsSplit(h, e, b, first, second[..last]);
    }
  }

  /** The block that creates the episode, by its `i`-th transaction: what comes after that in the
      block is executed. */
  lemma CreatingBlock<S, C, R, E>(
    h: Host<S, C, R, E>, e: State<S, R>, b: Block, i: nat, id: EpisodeId, ps: seq<PubKey>)
    requires id !in e.episodes && i < |b.txs| && NotCreatedIn(h, b.txs[..i], id)
    requires h.parse(b.txs[i].payload) == Some(NewEpisode(id, ps))
    ensures
      var start := h.ep.initialize(ps, PayloadMetadata(b.hash, b.daa, b.time, b.txs[i].id, b.txs[i].outputs));
      Executed(h, RunTxs(h, e, b, b.txs).0, id, start, [], CallsIn(h, b, b.txs[i + 1..], id))
  {
    var start := h.ep.initialize(ps, PayloadMetadata(b.hash, b.daa, b.time, b.txs[i].id, b.txs[i].outputs));
    NotYetCreated(h, e, b, b.txs[..i], id);
    RunTxsNext(h, e, b, i);
    var e1 := RunTxs(h, e, b, b.txs[..i]).0;
    CreatingTx(h, e1, b, b.txs[i], id, ps);
    assert b.txs[..i + 1] + b.txs[i + 1..] == b.txs;
    RunTxsSplit(h, e, b, b.txs[..i + 1], b.txs[i + 1..]);
    TxsExecute(h, RunTxs(h, e, b, b.txs[..i + 1]).0, b, b.txs[i + 1..], id, start, [], []);
    assert [] + CallsIn(h, b, b.txs[i + 1..], id) == CallsIn(h, b, b.txs[i + 1..], id);
  }

  /** From creation on: in any engine that does not have the episode when a block comes whose `i`-th
      transaction is the first to create it, and for any blocks accepted after that whose filterings
      it outlives, the engine holds the episode initialised with the participants that transaction
      names, and with every call that was made on it since executed, in order. */
  lemma CreatedExecutes<S, C, R, E>(
    h: Host<S, C, R, E>, e: State<S, R>, b: Block, i: nat, later: seq<Block>, id: EpisodeId, ps: seq<PubKey>)
    requires Matched(e) && id !in Filter(e, b.daa).episodes && i < |b.txs| && NotCreatedIn(h, b.txs[..i], id)
    requires h.parse(b.txs[i].payload) == Some(NewEpisode(id, ps))
    requires Outlives(b.daa, NextFiltering(e.nextFiltering, b.daa), later)
    ensures
      var start := h.ep.initialize(ps, PayloadMetadata(b.hash, b.daa, b.time, b.txs[i].id, b.txs[i].outputs));
      Executed(h, Run(h, e, Accepts([b] + later)), id, start, [],
               CallsIn(h, b, b.txs[i + 1..], id) + CallsInBlocks(h, later, id))
  {
    var start := h.ep.initialize(ps, PayloadMetadata(b.hash, b.daa, b.time, b.txs[i].id, b.txs[i].outputs));
    AcceptedCreation(h, e, b, i, id, ps);
    BlocksExecute(h, AcceptBlock(h, e, b), later, id, start, [], CallsIn(h, b, b.txs[i + 1..], id));
    AcceptFirst(h, e, b, later);
  }

  lemma AcceptFirst<S, C, R, E>(h: Host<S, C, R, E>, e: State<S, R>, b: Block, later: seq<Block>)
    ensures Run(h, e, Accepts([b] + later)) == Run(h, AcceptBlock(h, e, b), Accepts(later))
  {
    assert Accepts([b] + later)[0] == BlkAccepted(b) && Accepts([b] + later)[1..] == Accepts(later);
  }

  lemma AcceptedCreation<S, C, R, E>(
    h: Host<S, C, R, E>, e: State<S, R>, b: Block, i: nat, id: EpisodeId, ps: seq<PubKey>)
    requires Matched(e) && id !in Filter(e, b.daa).episodes && i < |b.txs| && NotCreatedIn(h, b.txs[..i], id)
    requires h.parse(b.txs[i].payload) == Some(NewEpisode(id, ps))
    ensures
      var start := h.ep.initialize(ps, PayloadMetadata(b.hash, b.daa, b.time, b.txs[i].id, b.txs[i].outputs));
      var e1 := AcceptBlock(h, e, b);
      && Executed(h, e1, id, start, [], CallsIn(h, b, b.txs[i + 1..], id))
      && Matched(e1) && id in e1.creationTimes && e1.creationTimes[id] == b.daa
      && e1.nextFiltering == NextFiltering(e.nextFiltering, b.daa)
  {
    CreatingBlock(h, Filter(e, b.daa), b, i, id, ps);
    CreationStamped(h, Filter(e, b.daa), b, i, id, ps);
    TxsExtend(h, Filter(e, b.daa), b, b.txs);
  }

  lemma CreationStamped<S, C, R, E>(
    h: Host<S, C, R, E>, e: State<S, R>, b: Block, i: nat, id: EpisodeId, ps: seq<PubKey>)
    requires Matched(e) && id !in e.episodes && i < |b.txs| && NotCreatedIn(h, b.txs[..i], id)
    requires h.parse(b.txs[i].payload) == Some(NewEpisode(id, ps))
    ensures
      var e' := RunTxs(h, e, b, b.txs).0;
      id in e'.creationTimes && e'.creationTimes[id] == b.daa
  {
    NotYetCreated(h, e, b, b.txs[..i], id);
    RunTxsNext(h, e, b, i);
    assert b.txs[..i + 1] + b.txs[i + 1..] == b.txs;
    RunTxsSplit(h, e, b, b.txs[..i + 1], b.txs[i + 1..]);
    TxsExtend(h, e, b, b.txs[..i + 1]);
    TxsExtend(h, RunTxs(h, e, b, b.txs[..i + 1]).0, b, b.txs[i + 1..]);
  }

  /** Filtering in numbers: it happens when the score is more than half a day's worth past the last
      time, and takes every episode created more than thirty days' worth of score ago. */
  lemma FilteredByNumbers<S, R>(e: State<S, R>, daa: nat, id: EpisodeId)
    requires Matched(e) && id in e.episodes
    ensures id in Filter(e, daa).episodes <==>
            !(daa > e.nextFiltering + 432000 && daa > e.creationTimes[id] + 2592000)
    ensures id in Filter(e, daa).episodes ==> Filter(e, daa).episodes[id] == e.episodes[id]
    ensures Filter(e, daa).nextFiltering == if daa > e.nextFiltering + 432000 then daa else e.nextFiltering
  {
  }

  /** Nothing after an Exit is looked at. */
  lemma ExitEnds<S, C, R, E>(h: Host<S, C, R, E>, e: State<S, R>, msgs: seq<EngineMsg>, more: seq<EngineMsg>)
    requires Exit !in msgs
    ensures Run(h, e, msgs + [Exit] + more) == Run(h, e, msgs)
  {
    assert msgs + [Exit] + more == msgs + ([Exit] + more);
    RunConcat(h, e, msgs, [Exit] + more);
  }
}

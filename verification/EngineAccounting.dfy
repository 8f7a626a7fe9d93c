/** The rollback stacks and the revert map keep the same books. */
module EngineAccounting {
  import opened Primitives
  import opened Sequences
  import opened EngineSpec
  import opened EngineFrame

  /** What a remembered entry did: created its episode, or ran one command on it. */
  datatype Action = Action(id: EpisodeId, creates: bool)

  /** A block on the current chain with the actions it caused. */
  datatype LiveBlock = LiveBlock(hash: Hash, log: seq<Action>)

  ghost function LogTx<S, C, R, E>(h: Host<S, C, R, E>, e: State<S, R>, b: Block, tx: Tx): seq<Action> {
    match RunTx(h, e, b, tx).1
    case None => []
    case Some(entry) => [Action(entry.id, entry.id !in e.episodes)]
  }

  ghost function LogTxs<S, C, R, E>(h: Host<S, C, R, E>, e: State<S, R>, b: Block, txs: seq<Tx>): seq<Action>
    decreases |txs|
  {
    if txs == [] then []
    else
      var shorter := txs[..|txs| - 1];
      LogTxs(h, e, b, shorter) + LogTx(h, RunTxs(h, e, b, shorter).0, b, txs[|txs| - 1])
  }

  ghost function Flatten(chain: seq<LiveBlock>): seq<Action>
    decreases |chain|
  {
    if chain == [] then [] else Flatten(chain[..|chain| - 1]) + chain[|chain| - 1].log
  }

  /** The number of actions on `id` from its latest creation onward. */
  ghost function Depth(log: seq<Action>, id: EpisodeId): nat
    decreases |log|
  {
    if log == [] then 0
    else
      var last := log[|log| - 1];
      if last.id != id then Depth(log[..|log| - 1], id)
      else if last.creates then 1
      else 1 + Depth(log[..|log| - 1], id)
  }

  /** If `id` is live, it was created on this log and owns one stack entry per later action. */
  ghost predicate AccountedFor<S, R>(e: State<S, R>, log: seq<Action>, id: EpisodeId) {
    id in e.episodes ==> Action(id, true) in log && |e.episodes[id].stack| + 1 == Depth(log, id)
  }

  ghost predicate Accounted<S, R>(e: State<S, R>, log: seq<Action>) {
    forall id :: AccountedFor(e, log, id)
  }

  ghost predicate SameIds(entries: seq<Entry>, log: seq<Action>) {
    |entries| == |log| && forall i :: 0 <= i < |log| ==> entries[i].id == log[i].id
  }

  ghost function Hashes(chain: seq<LiveBlock>): set<Hash> {
    set b | b in chain :: b.hash
  }

  /** The revert map holds exactly the actions of the live blocks. */
  ghost predicate Remembered<S, R>(e: State<S, R>, chain: seq<LiveBlock>) {
    && (forall i, j :: 0 <= i < j < |chain| ==> chain[i].hash != chain[j].hash)
    && e.revertMap.Keys == Hashes(chain)
    && forall b :: b in chain ==> SameIds(e.revertMap[b.hash], b.log)
  }

  lemma {:induction false} CreatedHasDepth(log: seq<Action>, id: EpisodeId)
    requires Action(id, true) in log
    ensures Depth(log, id) >= 1
    decreases |log|
  {
    var last := |log| - 1;
    if log[last].id != id {
      assert log == log[..last] + [log[last]];
      CreatedHasDepth(log[..last], id);
    }
  }

  lemma TxAccounted<S, C, R, E>(
    h: Host<S, C, R, E>, e: State<S, R>, log: seq<Action>, b: Block, tx: Tx, id: EpisodeId)
    requires AccountedFor(e, log, id)
    ensures AccountedFor(RunTx(h, e, b, tx).0, log + LogTx(h, e, b, tx), id)
  {
    var (e', entry) := RunTx(h, e, b, tx);
    if entry.Some? {
      var act := Action(entry.value.id, entry.value.id !in e.episodes);
      assert (log + [act])[..|log|] == log;
    } else {
      assert log + [] == log;
    }
  }

  lemma {:induction false} TxsAccounted<S, C, R, E>(
    h: Host<S, C, R, E>, e: State<S, R>, log: seq<Action>, b: Block, txs: seq<Tx>, id: EpisodeId)
    requires AccountedFor(e, log, id)
    ensures AccountedFor(RunTxs(h, e, b, txs).0, log + LogTxs(h, e, b, txs), id)
    decreases |txs|
  {
    if txs == [] {
      assert log + [] == log;
    } else {
      var shorter := txs[..|txs| - 1];
      TxsAccounted(h, e, log, b, shorter, id);
      var e1 := RunTxs(h, e, b, shorter).0;
      TxAccounted(h, e1, log + LogTxs(h, e, b, shorter), b, txs[|txs| - 1], id);
      assert log + LogTxs(h, e, b, shorter) + LogTx(h, e1, b, txs[|txs| - 1]) == log + LogTxs(h, e, b, txs);
    }
  }

  lemma {:induction false} LogSameIds<S, C, R, E>(h: Host<S, C, R, E>, e: State<S, R>, b: Block, txs: seq<Tx>)
    ensures SameIds(RunTxs(h, e, b, txs).1, LogTxs(h, e, b, txs))
    decreases |txs|
  {
    if txs != [] {
      LogSameIds(h, e, b, txs[..|txs| - 1]);
    }
  }

  /** Undoing the newest action keeps the books, and meets an empty stack exactly on a creation. */
  lemma RevertOneAccounted<S, C, R, E>(h: Host<S, C, R, E>, e: State<S, R>, log: seq<Action>, act: Action,
                                       id: EpisodeId)
    requires AccountedFor(e, log + [act], id)
    ensures AccountedFor(RevertOne(h, e, act.id), log, id)
    ensures act.id == id && id in e.episodes ==> (e.episodes[id].stack == [] <==> act.creates)
  {
    assert (log + [act])[..|log|] == log;
    if act.id == id && id in e.episodes && !act.creates {
      assert Action(id, true) in log;
      CreatedHasDepth(log, id);
    }
  }

  /** While a block is reverted, an episode is deleted exactly when its creation is reached. */
  ghost predicate DeletesOnlyCreations<S, C, R, E>(h: Host<S, C, R, E>, e: State<S, R>, acts: seq<Action>)
    decreases |acts|
  {
    acts != [] ==>
      var act := acts[|acts| - 1];
      && (act.id in e.episodes ==> (act.id !in RevertOne(h, e, act.id).episodes <==> act.creates))
      && DeletesOnlyCreations(h, RevertOne(h, e, act.id), acts[..|acts| - 1])
  }

  lemma {:induction false} RevertEntriesAccounted<S, C, R, E>(
    h: Host<S, C, R, E>, e: State<S, R>, log: seq<Action>, entries: seq<Entry>, acts: seq<Action>, id: EpisodeId)
    requires AccountedFor(e, log + acts, id) && SameIds(entries, acts)
    ensures AccountedFor(RevertEntries(h, e, entries), log, id)
    decreases |acts|
  {
    if acts == [] {
      assert log + [] == log;
    } else {
      var last := |acts| - 1;
      assert log + acts == (log + acts[..last]) + [acts[last]];
      RevertOneAccounted(h, e, log + acts[..last], acts[last], id);
      RevertEntriesAccounted(h, RevertOne(h, e, acts[last].id), log, entries[..last], acts[..last], id);
    }
  }

  lemma {:induction false} RevertEntriesDeletes<S, C, R, E>(
    h: Host<S, C, R, E>, e: State<S, R>, log: seq<Action>, acts: seq<Action>)
    requires Accounted(e, log + acts)
    ensures DeletesOnlyCreations(h, e, acts)
    decreases |acts|
  {
    if acts != [] {
      var last := |acts| - 1;
      var act := acts[last];
      assert log + acts == (log + acts[..last]) + [act];
      assert AccountedFor(e, log + acts, act.id);
      RevertOneAccounted(h, e, log + acts[..last], act, act.id);
      forall id ensures AccountedFor(RevertOne(h, e, act.id), log + acts[..last], id) {
        assert AccountedFor(e, log + acts, id);
        RevertOneAccounted(h, e, log + acts[..last], act, id);
      }
      RevertEntriesDeletes(h, RevertOne(h, e, act.id), log, acts[..last]);
    }
  }

  /** Entries of an episode that is not live undo nothing of it, and reverting never revives it. */
  lemma {:induction false} RevertEntriesRevivesNothing<S, C, R, E>(
    h: Host<S, C, R, E>, e: State<S, R>, entries: seq<Entry>, id: EpisodeId)
    requires id !in e.episodes
    ensures id !in RevertEntries(h, e, entries).episodes
    decreases |entries|
  {
    if entries != [] {
      var last := |entries| - 1;
      RevertEntriesRevivesNothing(h, RevertOne(h, e, entries[last].id), entries[..last], id);
    }
  }

  /** Messages as the chain can cause them: fresh blocks, and reverts of the tip or of a block
      the engine was never told about. */
  ghost predicate FollowsChain(chain: seq<LiveBlock>, msg: EngineMsg) {
    match msg
    case BlkAccepted(b) => b.hash !in Hashes(chain)
    case BlkReverted(hash) => hash !in Hashes(chain) || hash == chain[|chain| - 1].hash
    case Exit => false
  }

  ghost function NextChain<S, C, R, E>(h: Host<S, C, R, E>, e: State<S, R>, chain: seq<LiveBlock>, msg: EngineMsg)
    : seq<LiveBlock>
    requires FollowsChain(chain, msg)
  {
    match msg
    case BlkAccepted(b) => chain + [LiveBlock(b.hash, LogTxs(h, Filter(e, b.daa), b, b.txs))]
    case BlkReverted(hash) => if hash !in Hashes(chain) then chain else chain[..|chain| - 1]
  }

  lemma RememberedPush<S, R>(e: State<S, R>, e': State<S, R>, chain: seq<LiveBlock>, tip: LiveBlock,
                             entries: seq<Entry>)
    requires Remembered(e, chain) && tip.hash !in Hashes(chain) && SameIds(entries, tip.log)
    requires e'.revertMap == e.revertMap[tip.hash := entries]
    ensures Remembered(e', chain + [tip])
  {
    assert Hashes(chain + [tip]) == Hashes(chain) + {tip.hash};
    forall b | b in chain ensures b.hash in Hashes(chain) {
    }
  }

  lemma FlattenPush(chain: seq<LiveBlock>, floor: nat, tip: LiveBlock)
    requires floor <= |chain|
    ensures Flatten((chain + [tip])[floor..]) == Flatten(chain[floor..]) + tip.log
  {
    assert (chain + [tip])[floor..] == chain[floor..] + [tip];
    assert (chain[floor..] + [tip])[..|chain| - floor] == chain[floor..];
  }

  lemma AcceptAccounted<S, C, R, E>(
    h: Host<S, C, R, E>, e: State<S, R>, chain: seq<LiveBlock>, b: Block, floor: nat, id: EpisodeId)
    requires b.hash !in Hashes(chain)
    requires floor <= |chain| && AccountedFor(e, Flatten(chain[floor..]), id)
    ensures AccountedFor(AcceptBlock(h, e, b), Flatten(NextChain(h, e, chain, BlkAccepted(b))[floor..]), id)
  {
    var e0 := Filter(e, b.daa);
    var tip := LiveBlock(b.hash, LogTxs(h, e0, b, b.txs));
    TxsFrame(h, e0, b, b.txs);
    TxsAccounted(h, e0, Flatten(chain[floor..]), b, b.txs, id);
    FlattenPush(chain, floor, tip);
  }

  lemma RevertAccounted<S, C, R, E>(
    h: Host<S, C, R, E>, e: State<S, R>, rest: seq<LiveBlock>, tip: LiveBlock, floor: nat, id: EpisodeId)
    requires tip.hash in e.revertMap && SameIds(e.revertMap[tip.hash], tip.log)
    requires floor <= |rest| + 1 && AccountedFor(e, Flatten((rest + [tip])[floor..]), id)
    ensures AccountedFor(RevertBlock(h, e, tip.hash), Flatten(rest[Min(floor, |rest|)..]), id)
  {
    var e0 := e.(revertMap := e.revertMap - {tip.hash});
    if floor == |rest| + 1 {
      RevertEntriesRevivesNothing(h, e0, e.revertMap[tip.hash], id);
    } else {
      FlattenPush(rest, floor, tip);
      RevertEntriesAccounted(h, e0, Flatten(rest[floor..]), e.revertMap[tip.hash], tip.log, id);
    }
  }

  lemma RememberedPop<S, R>(e: State<S, R>, e': State<S, R>, rest: seq<LiveBlock>, tip: LiveBlock)
    requires Remembered(e, rest + [tip])
    requires e'.revertMap == e.revertMap - {tip.hash}
    ensures Remembered(e', rest)
  {
    var chain := rest + [tip];
    assert chain[|rest|] == tip;
    forall i | 0 <= i < |rest| ensures chain[i] == rest[i] && rest[i].hash != tip.hash && rest[i] in chain {
      assert chain[i].hash != chain[|rest|].hash;
    }
    assert Hashes(chain) == Hashes(rest) + {tip.hash};
    assert tip.hash !in Hashes(rest);
    assert Hashes(rest) == Hashes(chain) - {tip.hash};
  }

  lemma StepRemembered<S, C, R, E>(
    h: Host<S, C, R, E>, e: State<S, R>, chain: seq<LiveBlock>, msg: EngineMsg)
    requires Remembered(e, chain) && FollowsChain(chain, msg)
    ensures Remembered(Step(h, e, msg), NextChain(h, e, chain, msg))
  {
    match msg {
      case BlkAccepted(b) =>
        var e0 := Filter(e, b.daa);
        TxsFrame(h, e0, b, b.txs);
        LogSameIds(h, e0, b, b.txs);
        RememberedPush(e, AcceptBlock(h, e, b), chain, LiveBlock(b.hash, LogTxs(h, e0, b, b.txs)),
                       RunTxs(h, e0, b, b.txs).1);
      case BlkReverted(hash) =>
        if hash in Hashes(chain) {
          var rest, tip := chain[..|chain| - 1], chain[|chain| - 1];
          assert chain == rest + [tip];
          RevertEntriesFrame(h, e.(revertMap := e.revertMap - {hash}), e.revertMap[hash]);
          RememberedPop(e, RevertBlock(h, e, hash), rest, tip);
        }
    }
  }

  lemma StepAccounted<S, C, R, E>(
    h: Host<S, C, R, E>, e: State<S, R>, chain: seq<LiveBlock>, msg: EngineMsg, floor: nat, id: EpisodeId)
    requires Remembered(e, chain) && FollowsChain(chain, msg)
    requires floor <= |chain| && AccountedFor(e, Flatten(chain[floor..]), id)
    ensures
      var chain' := NextChain(h, e, chain, msg);
      AccountedFor(Step(h, e, msg), Flatten(chain'[Min(floor, |chain'|)..]), id)
  {
    match msg {
      case BlkAccepted(b) =>
        AcceptAccounted(h, e, chain, b, floor, id);
      case BlkReverted(hash) =>
        if hash in Hashes(chain) {
          var rest, tip := chain[..|chain| - 1], chain[|chain| - 1];
          assert chain == rest + [tip] && tip in chain;
          RevertAccounted(h, e, rest, tip, floor, id);
        }
    }
  }

  function Min(a: nat, b: nat): nat {
    if a < b then a else b
  }

  ghost predicate FollowsChainAll<S, C, R, E>(
    h: Host<S, C, R, E>, e: State<S, R>, chain: seq<LiveBlock>, msgs: seq<EngineMsg>)
    decreases |msgs|
  {
    msgs != [] ==>
      FollowsChain(chain, msgs[0]) &&
      FollowsChainAll(h, Step(h, e, msgs[0]), NextChain(h, e, chain, msgs[0]), msgs[1..])
  }

  ghost function ChainAfter<S, C, R, E>(
    h: Host<S, C, R, E>, e: State<S, R>, chain: seq<LiveBlock>, msgs: seq<EngineMsg>): seq<LiveBlock>
    requires FollowsChainAll(h, e, chain, msgs)
    decreases |msgs|
  {
    if msgs == [] then chain
    else ChainAfter(h, Step(h, e, msgs[0]), NextChain(h, e, chain, msgs[0]), msgs[1..])
  }

  /** The shortest the chain gets during a run. */
  ghost function FloorAfter<S, C, R, E>(
    h: Host<S, C, R, E>, e: State<S, R>, chain: seq<LiveBlock>, floor: nat, msgs: seq<EngineMsg>): nat
    requires FollowsChainAll(h, e, chain, msgs)
    decreases |msgs|
  {
    if msgs == [] then floor
    else
      var chain' := NextChain(h, e, chain, msgs[0]);
      FloorAfter(h, Step(h, e, msgs[0]), chain', Min(floor, |chain'|), msgs[1..])
  }

  lemma {:induction false} FloorPrefix<S, C, R, E>(
    h: Host<S, C, R, E>, e: State<S, R>, chain: seq<LiveBlock>, floor: nat, msgs: seq<EngineMsg>)
    requires FollowsChainAll(h, e, chain, msgs) && floor <= |chain|
    ensures
      var chain', floor' := ChainAfter(h, e, chain, msgs), FloorAfter(h, e, chain, floor, msgs);
      floor' <= Min(floor, |chain'|) && chain'[..floor'] == chain[..floor']
    decreases |msgs|
  {
    if msgs != [] {
      var next := NextChain(h, e, chain, msgs[0]);
      var low := Min(floor, |next|);
      assert next[..low] == chain[..low];
      FloorPrefix(h, Step(h, e, msgs[0]), next, low, msgs[1..]);
      var chain', floor' := ChainAfter(h, e, chain, msgs), FloorAfter(h, e, chain, floor, msgs);
      assert chain'[..floor'] == next[..floor'] == next[..low][..floor'] == chain[..low][..floor'] == chain[..floor'];
    }
  }

  lemma {:induction false} RunRemembered<S, C, R, E>(
    h: Host<S, C, R, E>, e: State<S, R>, chain: seq<LiveBlock>, msgs: seq<EngineMsg>)
    requires Remembered(e, chain) && FollowsChainAll(h, e, chain, msgs)
    ensures Remembered(Run(h, e, msgs), ChainAfter(h, e, chain, msgs))
    decreases |msgs|
  {
    if msgs != [] {
      StepRemembered(h, e, chain, msgs[0]);
      RunRemembered(h, Step(h, e, msgs[0]), NextChain(h, e, chain, msgs[0]), msgs[1..]);
    }
  }

  lemma {:induction false} RunAccountedAbove<S, C, R, E>(
    h: Host<S, C, R, E>, e: State<S, R>, chain: seq<LiveBlock>, msgs: seq<EngineMsg>,
    floor: nat, id: EpisodeId)
    requires Remembered(e, chain) && FollowsChainAll(h, e, chain, msgs)
    requires floor <= |chain| && AccountedFor(e, Flatten(chain[floor..]), id)
    ensures
      var chain', floor' := ChainAfter(h, e, chain, msgs), FloorAfter(h, e, chain, floor, msgs);
      floor' <= |chain'| && AccountedFor(Run(h, e, msgs), Flatten(chain'[floor'..]), id)
    decreases |msgs|
  {
    if msgs != [] {
      StepRemembered(h, e, chain, msgs[0]);
      StepAccounted(h, e, chain, msgs[0], floor, id);
      var chain' := NextChain(h, e, chain, msgs[0]);
      RunAccountedAbove(h, Step(h, e, msgs[0]), chain', msgs[1..], Min(floor, |chain'|), id);
    }
  }

  lemma TipDeletes<S, C, R, E>(h: Host<S, C, R, E>, e: State<S, R>, chain: seq<LiveBlock>)
    requires Accounted(e, Flatten(chain)) && chain != []
    ensures DeletesOnlyCreations(h, e, chain[|chain| - 1].log)
  {
    RevertEntriesDeletes(h, e, Flatten(chain[..|chain| - 1]), chain[|chain| - 1].log);
  }

  /** In every state a run reaches, prunings and re-creations included, each live episode's
      stack length plus one is the number of its remembered actions since its latest creation;
      so when the tip is reverted, exactly the creations delete. */
  lemma RunAccounted<S, C, R, E>(
    h: Host<S, C, R, E>, e: State<S, R>, chain: seq<LiveBlock>, msgs: seq<EngineMsg>)
    requires Accounted(e, Flatten(chain)) && Remembered(e, chain) && FollowsChainAll(h, e, chain, msgs)
    ensures
      var e', chain' := Run(h, e, msgs), ChainAfter(h, e, chain, msgs);
      && Accounted(e', Flatten(chain'))
      && Remembered(e', chain')
      && (chain' != [] ==> DeletesOnlyCreations(h, e', chain'[|chain'| - 1].log))
  {
    var e', chain' := Run(h, e, msgs), ChainAfter(h, e, chain, msgs);
    Whole(chain);
    Whole(chain');
    RunRemembered(h, e, chain, msgs);
    FloorPrefix(h, e, chain, 0, msgs);
    forall id ensures AccountedFor(e', Flatten(chain'), id) {
      assert AccountedFor(e, Flatten(chain), id);
      RunAccountedAbove(h, e, chain, msgs, 0, id);
    }
    if chain' != [] {
      TipDeletes(h, e', chain');
    }
  }

  /** A pruned episode may be created again while entries of its first life are still remembered.
      They are never charged to the new life: if it is live after a run, all its actions since
      its latest creation lie on the part of the chain accepted since. */
  lemma NewLifeOwnsItsStack<S, C, R, E>(
    h: Host<S, C, R, E>, e: State<S, R>, chain: seq<LiveBlock>, msgs: seq<EngineMsg>, id: EpisodeId)
    requires Remembered(e, chain) && FollowsChainAll(h, e, chain, msgs)
    requires id !in e.episodes
    ensures
      var e', chain', floor' := Run(h, e, msgs), ChainAfter(h, e, chain, msgs), FloorAfter(h, e, chain, |chain|, msgs);
      floor' <= Min(|chain|, |chain'|) && chain'[..floor'] == chain[..floor']
        && AccountedFor(e', Flatten(chain'[floor'..]), id)
  {
    FloorPrefix(h, e, chain, |chain|, msgs);
    RunAccountedAbove(h, e, chain, msgs, |chain|, id);
  }

  /** The premises of RunAccounted hold of a new engine. */
  lemma InitiallyAccounted<S, C, R, E>(h: Host<S, C, R, E>)
    ensures Accounted(Initial<S, R>(), Flatten([])) && Remembered(Initial<S, R>(), [])
  {
  }
}

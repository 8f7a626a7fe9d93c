/** What an engine keeps whatever its episodes do, with no contract on them. */
module EngineFrame {
  import opened EngineSpec

  /** Episodes and creation times have the same ids. */
  ghost predicate Matched<S, R>(e: State<S, R>) {
    e.episodes.Keys == e.creationTimes.Keys
  }

  /** Nothing was removed or redated, and neither the revert map nor the clock was touched. */
  ghost predicate Extends<S, R>(e: State<S, R>, e': State<S, R>) {
    && Matched(e')
    && e'.revertMap == e.revertMap && e'.nextFiltering == e.nextFiltering
    && forall id :: id in e.creationTimes ==>
         id in e'.creationTimes && e'.creationTimes[id] == e.creationTimes[id]
  }

  lemma TxExtends<S, C, R, E>(h: Host<S, C, R, E>, e: State<S, R>, b: Block, tx: Tx)
    requires Matched(e)
    ensures Extends(e, RunTx(h, e, b, tx).0)
  {
  }

  lemma {:induction false} TxsExtend<S, C, R, E>(h: Host<S, C, R, E>, e: State<S, R>, b: Block, txs: seq<Tx>)
    requires Matched(e)
    ensures Extends(e, RunTxs(h, e, b, txs).0)
    decreases |txs|
  {
    if txs != [] {
      TxsExtend(h, e, b, txs[..|txs| - 1]);
      TxExtends(h, RunTxs(h, e, b, txs[..|txs| - 1]).0, b, txs[|txs| - 1]);
    }
  }

  /** Transactions touch neither the revert map nor the clock. */
  lemma {:induction false} TxsFrame<S, C, R, E>(h: Host<S, C, R, E>, e: State<S, R>, b: Block, txs: seq<Tx>)
    ensures RunTxs(h, e, b, txs).0.revertMap == e.revertMap
    ensures RunTxs(h, e, b, txs).0.nextFiltering == e.nextFiltering
    decreases |txs|
  {
    if txs != [] {
      TxsFrame(h, e, b, txs[..|txs| - 1]);
    }
  }

  /** Reverting entries touches neither the revert map nor the clock, and keeps the ids matched. */
  lemma {:induction false} RevertEntriesFrame<S, C, R, E>(h: Host<S, C, R, E>, e: State<S, R>, entries: seq<Entry>)
    ensures RevertEntries(h, e, entries).revertMap == e.revertMap
    ensures RevertEntries(h, e, entries).nextFiltering == e.nextFiltering
    ensures Matched(e) ==> Matched(RevertEntries(h, e, entries))
    decreases |entries|
  {
    if entries != [] {
      var last := |entries| - 1;
      RevertEntriesFrame(h, RevertOne(h, e, entries[last].id), entries[..last]);
    }
  }

  lemma StepMatched<S, C, R, E>(h: Host<S, C, R, E>, e: State<S, R>, msg: EngineMsg)
    requires Matched(e) && !msg.Exit?
    ensures Matched(Step(h, e, msg))
  {
    match msg {
      case BlkAccepted(b) => TxsExtend(h, Filter(e, b.daa), b, b.txs);
      case BlkReverted(hash) =>
        if hash in e.revertMap {
          RevertEntriesFrame(h, e.(revertMap := e.revertMap - {hash}), e.revertMap[hash]);
        }
    }
  }

  /** In every state of every run, reverts included, episodes and creation times have the same ids. */
  lemma {:induction false} RunMatched<S, C, R, E>(h: Host<S, C, R, E>, e: State<S, R>, msgs: seq<EngineMsg>)
    requires Matched(e)
    ensures Matched(Run(h, e, msgs))
    decreases |msgs|
  {
    if msgs == [] || msgs[0].Exit? {
    } else {
      StepMatched(h, e, msgs[0]);
      RunMatched(h, Step(h, e, msgs[0]), msgs[1..]);
    }
  }
}

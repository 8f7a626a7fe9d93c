/** How old a live episode can be. */
module EngineAge {
  import opened EngineSpec
  import opened EngineFrame

  /** No live episode was already past its lifetime when filtering last ran. */
  ghost predicate Young<S, R>(e: State<S, R>) {
    forall id :: id in e.creationTimes ==> e.nextFiltering <= e.creationTimes[id] + EPISODE_LIFETIME
  }

  ghost predicate AgeBound<S, R>(e: State<S, R>, daa: nat) {
    forall id :: id in e.creationTimes ==>
      daa <= e.creationTimes[id] + EPISODE_LIFETIME + SAMPLE_REMOVAL_TIME
  }

  /** Creation times after a list of transactions are old ones or the block's own score. */
  lemma {:induction false} RunTxsTimes<S, C, R, E>(
    h: Host<S, C, R, E>, e: State<S, R>, b: Block, txs: seq<Tx>)
    ensures
      var e' := RunTxs(h, e, b, txs).0;
      && e'.nextFiltering == e.nextFiltering
      && forall id :: id in e'.creationTimes ==>
           e'.creationTimes[id] == b.daa || (id in e.creationTimes && e'.creationTimes[id] == e.creationTimes[id])
    decreases |txs|
  {
    if txs != [] {
      RunTxsTimes(h, e, b, txs[..|txs| - 1]);
    }
  }

  lemma {:induction false} RevertEntriesTimes<S, C, R, E>(h: Host<S, C, R, E>, e: State<S, R>, entries: seq<Entry>)
    ensures
      var e' := RevertEntries(h, e, entries);
      && e'.nextFiltering == e.nextFiltering
      && forall id :: id in e'.creationTimes ==> id in e.creationTimes && e'.creationTimes[id] == e.creationTimes[id]
    decreases |entries|
  {
    if entries != [] {
      var last := |entries| - 1;
      RevertEntriesTimes(h, RevertOne(h, e, entries[last].id), entries[..last]);
    }
  }

  /** A block is accepted no more than a lifetime behind the last filtering: the bound holds. */
  lemma AcceptAge<S, C, R, E>(h: Host<S, C, R, E>, e: State<S, R>, b: Block)
    requires Young(e) && e.nextFiltering <= b.daa + EPISODE_LIFETIME
    ensures Young(AcceptBlock(h, e, b)) && AgeBound(AcceptBlock(h, e, b), b.daa)
    ensures AcceptBlock(h, e, b).nextFiltering == NextFiltering(e.nextFiltering, b.daa)
  {
    RunTxsTimes(h, Filter(e, b.daa), b, b.txs);
  }

  /** An episode no older than its lifetime is neither pruned nor redated by accepting a block. */
  lemma AcceptPrunesOnlyOld<S, C, R, E>(h: Host<S, C, R, E>, e: State<S, R>, b: Block, id: EpisodeId)
    requires Matched(e)
    requires id in e.episodes && e.creationTimes[id] + EPISODE_LIFETIME >= b.daa
    ensures id in AcceptBlock(h, e, b).episodes
    ensures id in AcceptBlock(h, e, b).creationTimes && AcceptBlock(h, e, b).creationTimes[id] == e.creationTimes[id]
  {
    TxsExtend(h, Filter(e, b.daa), b, b.txs);
  }

  function Max(a: nat, b: nat): nat {
    if a < b then b else a
  }

  /** No accepted block is more than a lifetime behind an earlier one (in particular when the
      scores never decrease). */
  ghost predicate Paced(high: nat, msgs: seq<EngineMsg>)
    decreases |msgs|
  {
    msgs != [] && !msgs[0].Exit? ==>
      if msgs[0].BlkAccepted?
      then high <= msgs[0].block.daa + EPISODE_LIFETIME && Paced(Max(high, msgs[0].block.daa), msgs[1..])
      else Paced(high, msgs[1..])
  }

  /** After every accepted block of the run, its score is within the bound of every live episode. */
  ghost predicate BoundedThroughout<S, C, R, E>(h: Host<S, C, R, E>, e: State<S, R>, msgs: seq<EngineMsg>)
    decreases |msgs|
  {
    msgs != [] && !msgs[0].Exit? ==>
      var e' := Step(h, e, msgs[0]);
      && (msgs[0].BlkAccepted? ==> AgeBound(e', msgs[0].block.daa))
      && BoundedThroughout(h, e', msgs[1..])
  }

  lemma {:induction false} RunAge<S, C, R, E>(h: Host<S, C, R, E>, e: State<S, R>, high: nat, msgs: seq<EngineMsg>)
    requires Young(e) && e.nextFiltering <= high && Paced(high, msgs)
    ensures Young(Run(h, e, msgs))
    ensures BoundedThroughout(h, e, msgs)
    decreases |msgs|
  {
    if msgs == [] || msgs[0].Exit? {
    } else {
      match msgs[0] {
        case BlkAccepted(b) =>
          AcceptAge(h, e, b);
          RunAge(h, AcceptBlock(h, e, b), Max(high, b.daa), msgs[1..]);
        case BlkReverted(hash) =>
          if hash in e.revertMap {
            RevertEntriesTimes(h, e.(revertMap := e.revertMap - {hash}), e.revertMap[hash]);
          }
          RunAge(h, RevertBlock(h, e, hash), high, msgs[1..]);
      }
    }
  }
}

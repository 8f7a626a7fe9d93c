/** What an engine keeps of an episode and its pending rollbacks, whether or not rollback is an inverse. */
module EngineStacks {
  import opened Wrappers
  import opened Primitives
  import opened Episodes
  import opened EngineSpec

  /** A relation between an episode's state and its rollback stack. */
  type Tie<!S, !R> = (S, seq<R>) -> bool

  ghost predicate TiedByExecute<S, C, R, E>(
    ep: Episode<S, C, R, E>, tie: Tie<S, R>, s: S, stack: seq<R>, c: C, auth: Option<PubKey>, md: PayloadMetadata)
  {
    match ep.execute(s, c, auth, md)
    case (s', Ok(r)) => tie(s', stack + [r])
    case (s', Err(_)) => tie(s', stack)
  }

  ghost predicate TiedByRollback<S, C, R, E>(ep: Episode<S, C, R, E>, tie: Tie<S, R>, s: S, stack: seq<R>) {
    stack != [] ==> tie(ep.rollback(s, stack[|stack| - 1]).0, stack[..|stack| - 1])
  }

  /** The episode's own three operations keep the tie. */
  ghost predicate Keeps<S(!new), C(!new), R(!new), E(!new)>(ep: Episode<S, C, R, E>, tie: Tie<S, R>) {
    && (forall ps, md {:trigger ep.initialize(ps, md)} :: tie(ep.initialize(ps, md), []))
    && (forall s, stack, c, a, md :: tie(s, stack) ==> TiedByExecute(ep, tie, s, stack, c, a, md))
    && (forall s, stack :: tie(s, stack) ==> TiedByRollback(ep, tie, s, stack))
  }

  ghost predicate Tied<S, R>(tie: Tie<S, R>, e: State<S, R>) {
    forall id :: id in e.episodes ==> tie(e.episodes[id].episode, e.episodes[id].stack)
  }

  lemma PerformTied<S(!new), C(!new), R(!new), E(!new)>(
    h: Host<S, C, R, E>, tie: Tie<S, R>, e: State<S, R>, id: EpisodeId, cmd: C, auth: Option<PubKey>,
    md: PayloadMetadata)
    requires Tied(tie, e)
    requires id in e.episodes ==> TiedByExecute(h.ep, tie, e.episodes[id].episode, e.episodes[id].stack, cmd, auth, md)
    ensures Tied(tie, Perform(h, e, id, cmd, auth, md).0)
  {
  }

  lemma TxTied<S(!new), C(!new), R(!new), E(!new)>(
    h: Host<S, C, R, E>, tie: Tie<S, R>, e: State<S, R>, b: Block, tx: Tx)
    requires Keeps(h.ep, tie) && Tied(tie, e)
    ensures Tied(tie, RunTx(h, e, b, tx).0)
  {
    var md := MetadataOf(b, tx);
    match h.parse(tx.payload) {
      case Some(SignedCommand(id, cmd, pk, sig)) =>
        assert id in e.episodes ==>
            TiedByExecute(h.ep, tie, e.episodes[id].episode, e.episodes[id].stack, cmd, Some(pk), md);
        PerformTied(h, tie, e, id, cmd, Some(pk), md);
      case Some(UnsignedCommand(id, cmd)) =>
        assert id in e.episodes ==>
            TiedByExecute(h.ep, tie, e.episodes[id].episode, e.episodes[id].stack, cmd, None, md);
        PerformTied(h, tie, e, id, cmd, None, md);
      case _ =>
    }
  }

  lemma {:induction false} TxsTied<S(!new), C(!new), R(!new), E(!new)>(
    h: Host<S, C, R, E>, tie: Tie<S, R>, e: State<S, R>, b: Block, txs: seq<Tx>)
    requires Keeps(h.ep, tie) && Tied(tie, e)
    ensures Tied(tie, RunTxs(h, e, b, txs).0)
    decreases |txs|
  {
    if txs != [] {
      TxsTied(h, tie, e, b, txs[..|txs| - 1]);
      TxTied(h, tie, RunTxs(h, e, b, txs[..|txs| - 1]).0, b, txs[|txs| - 1]);
    }
  }

  lemma RevertOneTied<S(!new), C(!new), R(!new), E(!new)>(h: Host<S, C, R, E>, tie: Tie<S, R>, e: State<S, R>,
                                                          id: EpisodeId)
    requires Tied(tie, e)
    requires id in e.episodes ==> TiedByRollback(h.ep, tie, e.episodes[id].episode, e.episodes[id].stack)
    ensures Tied(tie, RevertOne(h, e, id))
  {
  }

  lemma {:induction false} RevertEntriesTied<S(!new), C(!new), R(!new), E(!new)>(
    h: Host<S, C, R, E>, tie: Tie<S, R>, e: State<S, R>, entries: seq<Entry>)
    requires Keeps(h.ep, tie) && Tied(tie, e)
    ensures Tied(tie, RevertEntries(h, e, entries))
    decreases |entries|
  {
    if entries != [] {
      var last := |entries| - 1;
      RevertOneTied(h, tie, e, entries[last].id);
      RevertEntriesTied(h, tie, RevertOne(h, e, entries[last].id), entries[..last]);
    }
  }

  /** What an episode's operations keep, an engine keeps for every live episode in every run, in
      whatever order blocks are accepted and reverted. */
  lemma {:induction false} RunTied<S(!new), C(!new), R(!new), E(!new)>(
    h: Host<S, C, R, E>, tie: Tie<S, R>, e: State<S, R>, msgs: seq<EngineMsg>)
    requires Keeps(h.ep, tie) && Tied(tie, e)
    ensures Tied(tie, Run(h, e, msgs))
    decreases |msgs|
  {
    if msgs == [] || msgs[0].Exit? {
    } else {
      match msgs[0] {
        case BlkAccepted(b) => TxsTied(h, tie, Filter(e, b.daa), b, b.txs);
        case BlkReverted(hash) =>
          if hash in e.revertMap {
            RevertEntriesTied(h, tie, e.(revertMap := e.revertMap - {hash}), e.revertMap[hash]);
          }
      }
      RunTied(h, tie, Step(h, e, msgs[0]), msgs[1..]);
    }
  }
}

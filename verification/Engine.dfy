/** The engine as the source runs it: objects updated in place, proved to follow EngineSpec. */
module Engines {
  import opened Wrappers
  import opened Primitives
  import opened Sequences
  import opened Episodes
  import opened EngineSpec

  ghost function ToSet(ids: seq<EpisodeId>): set<EpisodeId> {
    set id | id in ids
  }

  class EpisodeWrapper<S, C, R, E> {
    const host: Host<S, C, R, E>
    var episode: S
    var rollbackStack: seq<R>

    ghost function View(): Wrapper<S, R>
      reads this
    {
      Wrapper(episode, rollbackStack)
    }

    constructor (host: Host<S, C, R, E>, participants: seq<PubKey>, md: PayloadMetadata)
      ensures this.host == host && View() == Wrapper(host.ep.initialize(participants, md), [])
    {
      this.host := host;
      episode := host.ep.initialize(participants, md);
      rollbackStack := [];
    }

    method ExecuteSigned(cmd: C, pubkey: PubKey, sig: Sig, md: PayloadMetadata)
      returns (res: Result<(), EpisodeError<E>>)
      modifies this
      ensures !host.verify(pubkey, cmd, sig) ==> res == Err(InvalidSignature) && View() == old(View())
      ensures host.verify(pubkey, cmd, sig) ==> Executed(old(View()), cmd, Some(pubkey), md, res)
    {
      if !host.verify(pubkey, cmd, sig) {
        return Err(InvalidSignature);
      }
      var (s', rollback) := host.ep.execute(episode, cmd, Some(pubkey), md);
      episode := s';
      if rollback.Err? {
        return Err(rollback.error);
      }
      rollbackStack := rollbackStack + [rollback.value];
      return Ok(());
    }

    method ExecuteUnsigned(cmd: C, md: PayloadMetadata) returns (res: Result<(), EpisodeError<E>>)
      modifies this
      ensures Executed(old(View()), cmd, None, md, res)
    {
      var (s', rollback) := host.ep.execute(episode, cmd, None, md);
      episode := s';
      if rollback.Err? {
        return Err(rollback.error);
      }
      rollbackStack := rollbackStack + [rollback.value];
      return Ok(());
    }

    /** The wrapper now holds what the episode's `execute` left behind, with one more rollback
        object exactly when the command was accepted. */
    ghost predicate Executed(was: Wrapper<S, R>, cmd: C, auth: Option<PubKey>, md: PayloadMetadata,
                             res: Result<(), EpisodeError<E>>)
      reads this
    {
      var (s', outcome) := host.ep.execute(was.episode, cmd, auth, md);
      match outcome
      case Ok(r) => res.Ok? && View() == Wrapper(s', was.stack + [r])
      case Err(error) => res == Err(error) && View() == Wrapper(s', was.stack)
    }

    /** Pops the stack; an empty stack asks for the episode's deletion. */
    method Rollback() returns (res: Result<(), EpisodeError<E>>)
      modifies this
      ensures old(rollbackStack) == [] ==> res == Err(DeleteEpisode) && View() == old(View())
      ensures old(rollbackStack) != [] ==>
        var last := |old(rollbackStack)| - 1;
        res.Ok? &&
        View() == Wrapper(host.ep.rollback(old(episode), old(rollbackStack)[last]).0, old(rollbackStack)[..last])
    {
      if rollbackStack == [] {
        return Err(DeleteEpisode);
      }
      var last := |rollbackStack| - 1;
      var rollback := rollbackStack[last];
      rollbackStack := rollbackStack[..last];
      var (s', ok) := host.ep.rollback(episode, rollback);
      episode := s';
      return Ok(());
    }
  }

  class Engine<S, C, R, E> {
    const host: Host<S, C, R, E>
    var episodes: map<EpisodeId, EpisodeWrapper<S, C, R, E>>
    var revertMap: map<Hash, seq<Entry>>
    var nextFiltering: nat
    var creationTimes: map<EpisodeId, nat>

    /** Every episode has a wrapper of its own. */
    ghost predicate Valid()
      reads this, episodes.Values
    {
      && (forall id :: id in episodes ==> episodes[id].host == host)
      && (forall i, j :: i in episodes && j in episodes && i != j ==> episodes[i] != episodes[j])
    }

    ghost function View(): State<S, R>
      reads this, episodes.Values
    {
      State(map id | id in episodes :: episodes[id].View(), revertMap, nextFiltering, creationTimes)
    }

    constructor (host: Host<S, C, R, E>)
      ensures this.host == host && Valid() && View() == Initial() && episodes == map[]
    {
      this.host := host;
      episodes, revertMap, nextFiltering, creationTimes := map[], map[], 0, map[];
    }

    /** Applies the messages received, in order, up to the first Exit. */
    method Start(msgs: seq<EngineMsg>)
      requires Valid()
      modifies this, episodes.Values
      ensures Valid() && fresh(episodes.Values - old(episodes.Values))
      ensures View() == Run(host, old(View()), msgs)
    {
      var i := 0;
      assert msgs[0..] == msgs;
      while i < |msgs|
        invariant 0 <= i <= |msgs|
        invariant Valid() && fresh(episodes.Values - old(episodes.Values))
        invariant Run(host, View(), msgs[i..]) == Run(host, old(View()), msgs)
      {
        assert msgs[i..][0] == msgs[i] && msgs[i..][1..] == msgs[i + 1..];
        match msgs[i] {
          case BlkAccepted(b) => Accept(b);
          case BlkReverted(hash) => RevertAccepted(hash);
          case Exit => break;
        }
        i := i + 1;
      }
    }

    method Accept(b: Block)
      requires Valid()
      modifies this, episodes.Values
      ensures Valid() && fresh(episodes.Values - old(episodes.Values))
      ensures View() == AcceptBlock(host, old(View()), b)
    {
      FilterOldEpisodes(b.daa);
      ghost var filtered := View();
      var revertVec: seq<Entry> := [];
      var i := 0;
      while i < |b.txs|
        invariant 0 <= i <= |b.txs|
        invariant Valid() && fresh(episodes.Values - old(episodes.Values))
        invariant (View(), revertVec) == RunTxs(host, filtered, b, b.txs[..i])
      {
        RunTxsNext(host, filtered, b, i);
        var revertId := HandleTx(b, b.txs[i]);
        i := i + 1;
        if revertId.Some? {
          revertVec := revertVec + [revertId.value];
        }
      }
      Whole(b.txs);
      revertMap := revertMap[b.hash := revertVec];
    }

    method HandleTx(b: Block, tx: Tx) returns (entry: Option<Entry>)
      requires Valid()
      modifies this, episodes.Values
      ensures Valid() && fresh(episodes.Values - old(episodes.Values))
      ensures (View(), entry) == RunTx(host, old(View()), b, tx)
    {
      var action := host.parse(tx.payload);
      if action.None? || action.value.Revert? {
        // A reversion is not accepted as a payload.
        return None;
      }
      entry := HandleMessage(action.value, MetadataOf(b, tx));
    }

    method RevertAccepted(hash: Hash)
      requires Valid()
      modifies this, episodes.Values
      ensures Valid() && fresh(episodes.Values - old(episodes.Values))
      ensures View() == RevertBlock(host, old(View()), hash)
    {
      if hash in revertMap {
        var entries := revertMap[hash];
        revertMap := revertMap - {hash};
        ghost var removed := View();
        assert removed.episodes == old(View()).episodes;
        var i := |entries|;
        assert entries[..i] == entries;
        while i > 0
          invariant 0 <= i <= |entries|
          invariant Valid() && fresh(episodes.Values - old(episodes.Values))
          invariant RevertEntries(host, View(), entries[..i]) == RevertEntries(host, removed, entries)
        {
          i := i - 1;
          assert entries[..i + 1][..i] == entries[..i];
          var reversion := entries[i];
          var md := PayloadMetadata(hash, reversion.md.acceptingDaa, reversion.md.acceptingTime,
                                    reversion.md.txId, reversion.md.txOutputs);
          var none := HandleMessage(Revert(reversion.id), md);
          assert none == None;
        }
      }
    }

    method FilterOldEpisodes(daa: nat)
      requires Valid()
      modifies this
      ensures Valid() && episodes.Values <= old(episodes.Values)
      ensures View() == Filter(old(View()), daa)
    {
      ghost var gone := PrunedBy(View(), daa);
      if daa > nextFiltering + SAMPLE_REMOVAL_TIME {
        var cutoff := if daa >= EPISODE_LIFETIME then daa - EPISODE_LIFETIME else 0;
        var removeIds: seq<EpisodeId> := [];
        var left := creationTimes.Keys;
        while left != {}
          invariant left <= creationTimes.Keys
          invariant ToSet(removeIds) == gone - left
          decreases left
        {
          var id :| id in left;
          assert id in gone <==> creationTimes[id] < cutoff;
          if creationTimes[id] < cutoff {
            assert ToSet(removeIds + [id]) == ToSet(removeIds) + {id};
            removeIds := removeIds + [id];
          }
          left := left - {id};
        }
        RemoveAll(removeIds);
        nextFiltering := daa;
      } else {
        assert episodes - {} == episodes && creationTimes - {} == creationTimes;
      }
      assert View().episodes == Filter(old(View()), daa).episodes;
    }

    method RemoveAll(ids: seq<EpisodeId>)
      modifies this`episodes, this`creationTimes
      ensures episodes == old(episodes) - ToSet(ids)
      ensures creationTimes == old(creationTimes) - ToSet(ids)
    {
      for i := 0 to |ids|
        invariant episodes == old(episodes) - ToSet(ids[..i])
        invariant creationTimes == old(creationTimes) - ToSet(ids[..i])
      {
        episodes := episodes - {ids[i]};
        creationTimes := creationTimes - {ids[i]};
        assert ToSet(ids[..i + 1]) == ToSet(ids[..i]) + {ids[i]};
      }
      assert ids[..|ids|] == ids;
    }

    method HandleMessage(action: EpisodeMessage<C>, md: PayloadMetadata) returns (entry: Option<Entry>)
      requires Valid()
      modifies this, episodes.Values
      ensures Valid() && fresh(episodes.Values - old(episodes.Values))
      ensures (View(), entry) == Handle(host, old(View()), action, md)
    {
      match action {
        case NewEpisode(id, participants) => entry := HandleNew(id, participants, md);
        case SignedCommand(id, cmd, pubkey, sig) => entry := HandleSigned(id, cmd, pubkey, sig, md);
        case UnsignedCommand(id, cmd) => entry := HandleUnsigned(id, cmd, md);
        case Revert(id) =>
          HandleRevert(id);
          entry := None;
      }
    }

    method HandleNew(id: EpisodeId, participants: seq<PubKey>, md: PayloadMetadata) returns (entry: Option<Entry>)
      requires Valid()
      modifies this
      ensures Valid() && fresh(episodes.Values - old(episodes.Values))
      ensures (View(), entry) == Create(host, old(View()), id, participants, md)
    {
      if id in episodes {
        return None;
      }
      var wrapper := new EpisodeWrapper(host, participants, md);
      episodes := episodes[id := wrapper];
      creationTimes := creationTimes[id := md.acceptingDaa];
      assert View().episodes == old(View()).episodes[id := wrapper.View()];
      return Some(Entry(id, md));
    }

    method HandleSigned(id: EpisodeId, cmd: C, pubkey: PubKey, sig: Sig, md: PayloadMetadata)
      returns (entry: Option<Entry>)
      requires Valid()
      modifies episodes.Values
      ensures Valid()
      ensures (View(), entry) == Handle(host, old(View()), SignedCommand(id, cmd, pubkey, sig), md)
    {
      if id !in episodes {
        return None;
      }
      var res := episodes[id].ExecuteSigned(cmd, pubkey, sig, md);
      assert View().episodes == old(View()).episodes[id := episodes[id].View()];
      assert old(View()).episodes[id := old(episodes[id].View())] == old(View()).episodes;
      return if res.Ok? then Some(Entry(id, md)) else None;
    }

    method HandleUnsigned(id: EpisodeId, cmd: C, md: PayloadMetadata) returns (entry: Option<Entry>)
      requires Valid()
      modifies episodes.Values
      ensures Valid()
      ensures (View(), entry) == Perform(host, old(View()), id, cmd, None, md)
    {
      if id !in episodes {
        return None;
      }
      var res := episodes[id].ExecuteUnsigned(cmd, md);
      assert View().episodes == old(View()).episodes[id := episodes[id].View()];
      return if res.Ok? then Some(Entry(id, md)) else None;
    }

    method HandleRevert(id: EpisodeId)
      requires Valid()
      modifies this, episodes.Values
      ensures Valid() && episodes.Values <= old(episodes.Values)
      ensures View() == RevertOne(host, old(View()), id)
    {
      if id !in episodes {
        return;
      }
      var res := episodes[id].Rollback();
      if res == Err(DeleteEpisode) {
        // A revert of the creation.
        episodes := episodes - {id};
        creationTimes := creationTimes - {id};
        assert View().episodes == old(View()).episodes - {id};
      } else {
        assert View().episodes == old(View()).episodes[id := episodes[id].View()];
      }
    }
  }
}

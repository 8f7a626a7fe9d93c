/** The injection points of an episode (kdapp/src/episode.rs) and the execute/rollback
    contract its comments promise, over an arbitrary episode type. */
module Episodes {
  import opened Wrappers
  import opened Primitives

  datatype TxOutputInfo = TxOutputInfo(value: nat, scriptVersion: nat, scriptBytes: Option<seq<Byte>>)

  datatype PayloadMetadata = PayloadMetadata(
    acceptingHash: Hash, acceptingDaa: nat, acceptingTime: nat, txId: Hash,
    txOutputs: Option<seq<TxOutputInfo>>)

  datatype EpisodeError<+E> = Unauthorized | InvalidSignature | InvalidCommand(error: E) | DeleteEpisode

  /** An episode implementation: state S, commands C, rollback objects R, command errors E.
      `execute` returns the state it leaves behind on both outcomes. */
  datatype Episode<!S, !C, !R, !E> = Episode(
    initialize: (seq<PubKey>, PayloadMetadata) -> S,
    execute: (S, C, Option<PubKey>, PayloadMetadata) -> (S, Result<R, EpisodeError<E>>),
    rollback: (S, R) -> (S, bool))

  /** What a contract is stated about: the participant lists it covers, the invariant of the
      states it covers, and when two states count as the same. */
  datatype Contract<!S> = Contract(admits: seq<PubKey> -> bool, inv: S -> bool, same: (S, S) -> bool)

  ghost predicate Equivalence<S(!new)>(k: Contract<S>) {
    && (forall s :: k.same(s, s))
    && (forall s, t :: k.same(s, t) ==> k.same(t, s))
    && (forall s, t, u :: k.same(s, t) && k.same(t, u) ==> k.same(s, u))
    && (forall s, t :: k.inv(s) && k.same(s, t) ==> k.inv(t))
  }

  /** A rejected command changes nothing; the rollback object of an accepted one leads back. */
  ghost predicate ExecuteLaw<S, C, R, E>(
    ep: Episode<S, C, R, E>, k: Contract<S>, s: S, c: C, auth: Option<PubKey>, md: PayloadMetadata)
  {
    var (s', res) := ep.execute(s, c, auth, md);
    match res
    case Err(_) => s' == s
    case Ok(r) => k.inv(s') && ep.rollback(s', r).1 && k.same(ep.rollback(s', r).0, s)
  }

  /** States that count as the same take the same decision, with the same rollback object. */
  ghost predicate ExecuteRespects<S, C, R, E>(
    ep: Episode<S, C, R, E>, k: Contract<S>, s: S, t: S, c: C, auth: Option<PubKey>, md: PayloadMetadata)
  {
    && ep.execute(s, c, auth, md).1 == ep.execute(t, c, auth, md).1
    && k.same(ep.execute(s, c, auth, md).0, ep.execute(t, c, auth, md).0)
  }

  ghost predicate RollbackRespects<S, C, R, E>(ep: Episode<S, C, R, E>, k: Contract<S>, s: S, t: S, r: R) {
    && ep.rollback(s, r).1 == ep.rollback(t, r).1
    && k.same(ep.rollback(s, r).0, ep.rollback(t, r).0)
  }

  /** The contract of the Episode trait. */
  ghost predicate Undoes<S(!new), C(!new), R(!new), E(!new)>(ep: Episode<S, C, R, E>, k: Contract<S>) {
    && Equivalence(k)
    && (forall ps, md {:trigger ep.initialize(ps, md)} :: k.admits(ps) ==> k.inv(ep.initialize(ps, md)))
    && (forall s, c, a, md :: k.inv(s) ==> ExecuteLaw(ep, k, s, c, a, md))
    && (forall s, t, c, a, md :: k.inv(s) && k.same(s, t) ==> ExecuteRespects(ep, k, s, t, c, a, md))
    && (forall s, t, r :: k.inv(s) && k.same(s, t) ==> RollbackRespects(ep, k, s, t, r))
  }

  /** With equality as sameness, only initialisation and the execute law are left to show. */
  lemma UndoesExactly<S(!new), C(!new), R(!new), E(!new)>(ep: Episode<S, C, R, E>, k: Contract<S>)
    requires forall s, t :: k.same(s, t) <==> s == t
    requires forall ps, md {:trigger ep.initialize(ps, md)} :: k.admits(ps) ==> k.inv(ep.initialize(ps, md))
    requires forall s, c, a, md :: k.inv(s) ==> ExecuteLaw(ep, k, s, c, a, md)
    ensures Undoes(ep, k)
  {
  }

  /** Popping the whole stack (last entry first) succeeds at every step. */
  ghost predicate Undoable<S, C, R, E>(ep: Episode<S, C, R, E>, k: Contract<S>, s: S, stack: seq<R>)
    decreases |stack|
  {
    k.inv(s) &&
    (stack != [] ==>
       var (s', ok) := ep.rollback(s, stack[|stack| - 1]);
       ok && Undoable(ep, k, s', stack[..|stack| - 1]))
  }

  lemma {:induction false} UndoableRespects<S(!new), C(!new), R(!new), E(!new)>(
    ep: Episode<S, C, R, E>, k: Contract<S>, s: S, t: S, stack: seq<R>)
    requires Undoes(ep, k) && k.same(s, t) && Undoable(ep, k, s, stack)
    ensures Undoable(ep, k, t, stack)
    decreases |stack|
  {
    if stack == [] {
    } else {
      var r := stack[|stack| - 1];
      assert RollbackRespects(ep, k, s, t, r);
      UndoableRespects(ep, k, ep.rollback(s, r).0, ep.rollback(t, r).0, stack[..|stack| - 1]);
    }
  }

  lemma UndoablePush<S(!new), C(!new), R(!new), E(!new)>(
    ep: Episode<S, C, R, E>, k: Contract<S>, s: S, stack: seq<R>, c: C, auth: Option<PubKey>, md: PayloadMetadata)
    requires Undoes(ep, k) && Undoable(ep, k, s, stack)
    requires ep.execute(s, c, auth, md).1.Ok?
    ensures
      var (s', res) := ep.execute(s, c, auth, md);
      Undoable(ep, k, s', stack + [res.value])
  {
    assert ExecuteLaw(ep, k, s, c, auth, md);
    var (s', res) := ep.execute(s, c, auth, md);
    var back := ep.rollback(s', res.value).0;
    assert k.same(s, back);
    UndoableRespects(ep, k, s, back, stack);
    assert (stack + [res.value])[..|stack|] == stack;
  }

  /** A call an episode is asked to execute. */
  datatype Call<C> = Call(cmd: C, auth: Option<PubKey>, md: PayloadMetadata)

  /** Executes a list of calls, keeping the rollback object of each accepted one. */
  function ExecuteAll<S, C, R, E>(ep: Episode<S, C, R, E>, s: S, calls: seq<Call<C>>): (S, seq<R>) {
    if calls == [] then (s, [])
    else
      var (s1, stack) := ExecuteAll(ep, s, calls[..|calls| - 1]);
      var last := calls[|calls| - 1];
      var (s2, res) := ep.execute(s1, last.cmd, last.auth, last.md);
      (s2, if res.Ok? then stack + [res.value] else stack)
  }

  /** Pops the whole stack; the flag says whether every rollback reported success. */
  function RollbackAll<S, C, R, E>(ep: Episode<S, C, R, E>, s: S, stack: seq<R>): (S, bool)
    decreases |stack|
  {
    if stack == [] then (s, true)
    else
      var (s1, ok) := ep.rollback(s, stack[|stack| - 1]);
      var (s2, rest) := RollbackAll(ep, s1, stack[..|stack| - 1]);
      (s2, ok && rest)
  }

  lemma {:induction false} RollbackAllRespects<S(!new), C(!new), R(!new), E(!new)>(
    ep: Episode<S, C, R, E>, k: Contract<S>, s: S, t: S, stack: seq<R>)
    requires Undoes(ep, k) && k.same(s, t) && Undoable(ep, k, s, stack)
    ensures k.same(RollbackAll(ep, s, stack).0, RollbackAll(ep, t, stack).0)
    ensures RollbackAll(ep, s, stack).1 && RollbackAll(ep, t, stack).1
    decreases |stack|
  {
    if stack == [] {
    } else {
      var r := stack[|stack| - 1];
      assert RollbackRespects(ep, k, s, t, r);
      RollbackAllRespects(ep, k, ep.rollback(s, r).0, ep.rollback(t, r).0, stack[..|stack| - 1]);
    }
  }

  /** Any run of commands, accepted or not, is undone by popping its rollbacks: each pop
      succeeds and the state reached is the same as the one the run started from. */
  lemma {:induction false} RunThenUndo<S(!new), C(!new), R(!new), E(!new)>(
    ep: Episode<S, C, R, E>, k: Contract<S>, s: S, calls: seq<Call<C>>)
    requires Undoes(ep, k) && k.inv(s)
    ensures
      var (s', stack) := ExecuteAll(ep, s, calls);
      && Undoable(ep, k, s', stack)
      && RollbackAll(ep, s', stack).1
      && k.same(RollbackAll(ep, s', stack).0, s)
    decreases |calls|
  {
    if calls == [] {
    } else {
      var shorter := calls[..|calls| - 1];
      RunThenUndo(ep, k, s, shorter);
      var (s1, stack) := ExecuteAll(ep, s, shorter);
      var last := calls[|calls| - 1];
      assert ExecuteLaw(ep, k, s1, last.cmd, last.auth, last.md);
      var (s2, res) := ep.execute(s1, last.cmd, last.auth, last.md);
      if res.Ok? {
        UndoablePush(ep, k, s1, stack, last.cmd, last.auth, last.md);
        var back := ep.rollback(s2, res.value).0;
        UndoableRespects(ep, k, s1, back, stack);
        RollbackAllRespects(ep, k, s1, back, stack);
        assert (stack + [res.value])[..|stack|] == stack;
      }
    }
  }
}

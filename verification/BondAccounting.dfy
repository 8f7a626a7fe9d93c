/** Bonds are conserved: the board's totals always equal the bonds still outstanding. */
module BondAccounting {
  import opened Wrappers
  import opened Primitives
  import opened Episodes
  import opened CommentBoard

  /** Sum of the values of a map. */
  ghost function Sum(m: map<UtxoId, nat>): nat
    decreases |m|
  {
    if m == map[] then 0
    else
      var k :| k in m;
      assert |m - {k}| < |m| by { assert (m - {k}).Keys == m.Keys - {k}; }
      m[k] + Sum(m - {k})
  }

  lemma {:induction false} SumRemove(m: map<UtxoId, nat>, k: UtxoId)
    requires k in m
    ensures Sum(m) == m[k] + Sum(m - {k})
    decreases |m|
  {
    var pick :| pick in m && Sum(m) == m[pick] + Sum(m - {pick});
    if pick != k {
      assert |m - {pick}| < |m| by { assert (m - {pick}).Keys == m.Keys - {pick}; }
      assert |m - {k}| < |m| by { assert (m - {k}).Keys == m.Keys - {k}; }
      SumRemove(m - {pick}, k);
      SumRemove(m - {k}, pick);
      assert m - {pick} - {k} == m - {k} - {pick};
    }
  }

  lemma SumPut(m: map<UtxoId, nat>, k: UtxoId, v: nat)
    ensures Sum(m[k := v]) == v + Sum(m - {k})
  {
    SumRemove(m[k := v], k);
    assert m[k := v] - {k} == m - {k};
  }

  lemma SumWithout(m: map<UtxoId, nat>, k: UtxoId)
    ensures Sum(m - {k}) == Sum(m) - if k in m then m[k] else 0
  {
    if k in m {
      SumRemove(m, k);
    } else {
      assert m - {k} == m;
    }
  }

  /** The bonds of the joins and of the comments that could still be rolled back. */

  function JoinBonds(stack: seq<ContractRollback>): nat {
    if stack == [] then 0
    else
      var last := stack[|stack| - 1];
      JoinBonds(stack[..|stack| - 1])
      + if last.operation == JoinedRoom && last.bondAmount.Some? then last.bondAmount.value else 0
  }

  function CommentBonds(comments: seq<Comment>): nat {
    if comments == [] then 0
    else CommentBonds(comments[..|comments| - 1]) + comments[|comments| - 1].bondAmount
  }

  /** The rollback object is one its operation produces. */
  ghost predicate WellFormed(r: ContractRollback) {
    match r.operation
    case JoinedRoom =>
      && r.commentId == None && r.bondAmount.Some? && |r.utxoChanges| == 1
      && r.utxoChanges[0].0.JoinBond? && r.utxoChanges[0].1 == r.bondAmount.value
    case SubmittedComment =>
      && r.commentId.Some? && r.bondAmount.Some? && |r.utxoChanges| == 1
      && r.utxoChanges[0].0.CommentBond? && r.utxoChanges[0].0.commentId == r.commentId.value
      && r.utxoChanges[0].1 == r.bondAmount.value
    case _ => r == ContractRollback(r.operation, None, None, [])
  }

  /** The comments are those submitted by the stack's entries, oldest first, and the bond of each
      is locked under the identifier its entry will release. */
  ghost predicate Matches(locked: map<UtxoId, nat>, comments: seq<Comment>, stack: seq<ContractRollback>)
    decreases |stack|
  {
    if stack == [] then comments == []
    else
      var last, rest := stack[|stack| - 1], stack[..|stack| - 1];
      WellFormed(last) &&
      if last.operation != SubmittedComment then Matches(locked, comments, rest)
      else
        && comments != []
        && var c := comments[|comments| - 1];
           && last.commentId.value == c.id && last.bondAmount.value == c.bondAmount
           && last.utxoChanges[0].0 in locked && locked[last.utxoChanges[0].0] == c.bondAmount
           && Matches(locked, comments[..|comments| - 1], rest)
  }

  /** Locked identifiers: comment bonds of ids already given out, and zero leftovers of joins. */
  ghost predicate LockedOk(locked: map<UtxoId, nat>, next: nat) {
    forall utxo :: utxo in locked ==>
      match utxo
      case CommentBond(id, _) => id < next
      case JoinBond(_) => locked[utxo] == 0
  }

  /** Comment ids grow, and stay below the next one. */
  ghost predicate Increasing(comments: seq<Comment>, next: nat)
    decreases |comments|
  {
    comments != [] ==>
      var c := comments[|comments| - 1];
      c.id < next && Increasing(comments[..|comments| - 1], c.id)
  }

  /** The board's books, against the rollback objects that are still pending. */
  ghost predicate Books(b: Board, stack: seq<ContractRollback>) {
    && Matches(b.lockedUtxos, b.comments, stack)
    && LockedOk(b.lockedUtxos, b.nextCommentId)
    && Increasing(b.comments, b.nextCommentId)
    && b.totalLockedValue == JoinBonds(stack) + CommentBonds(b.comments)
    && Sum(b.lockedUtxos) == CommentBonds(b.comments)
    && b.totalComments == |b.comments|
  }

  lemma InitiallyBalanced(rules: RoomRules, md: PayloadMetadata)
    ensures Books(Initialize(rules, md), [])
  {
  }

  /** Only the identifiers of comments below `bound` matter to comments below `bound`. */
  lemma {:induction false} MatchesFrame(
    locked: map<UtxoId, nat>, locked': map<UtxoId, nat>, comments: seq<Comment>, stack: seq<ContractRollback>,
    bound: nat)
    requires Matches(locked, comments, stack) && Increasing(comments, bound)
    requires forall id: nat, tx :: id < bound && CommentBond(id, tx) in locked ==>
      CommentBond(id, tx) in locked' && locked'[CommentBond(id, tx)] == locked[CommentBond(id, tx)]
    ensures Matches(locked', comments, stack)
    decreases |stack|
  {
    if stack != [] {
      var last, rest := stack[|stack| - 1], stack[..|stack| - 1];
      if last.operation != SubmittedComment {
        MatchesFrame(locked, locked', comments, rest, bound);
      } else {
        var c := comments[|comments| - 1];
        MatchesFrame(locked, locked', comments[..|comments| - 1], rest, c.id);
      }
    }
  }

  lemma {:induction false} WithoutLast(comments: seq<Comment>, id: nat)
    requires Increasing(comments, id)
    ensures WithoutComment(comments, id) == comments
    decreases |comments|
  {
    if comments != [] {
      var last := |comments| - 1;
      IncreasingWeaken(comments[..last], comments[last].id, id);
      WithoutLast(comments[..last], id);
      assert comments == comments[..last] + [comments[last]];
    }
  }

  lemma IncreasingWeaken(comments: seq<Comment>, next: nat, next': nat)
    requires Increasing(comments, next) && next <= next'
    ensures Increasing(comments, next')
  {
  }

  /** Executing. */

  lemma PushPlain(b: Board, stack: seq<ContractRollback>, b': Board, r: ContractRollback)
    requires Books(b, stack) && WellFormed(r) && r.operation != SubmittedComment
    requires b'.lockedUtxos == b.lockedUtxos && b'.comments == b.comments && b'.nextCommentId == b.nextCommentId
    requires b'.totalComments == b.totalComments
    requires b'.totalLockedValue == b.totalLockedValue + if r.operation == JoinedRoom then r.bondAmount.value else 0
    ensures Books(b', stack + [r])
  {
    assert (stack + [r])[..|stack|] == stack;
  }

  lemma PushComment(b: Board, stack: seq<ContractRollback>, author: PubKey, text: string, bond: nat,
                    md: PayloadMetadata)
    requires Books(b, stack)
    ensures
      var utxo := CommentBond(b.nextCommentId, md.txId);
      Books(Post(b, author, text, bond, md),
            stack + [ContractRollback(SubmittedComment, Some(b.nextCommentId), Some(bond), [(utxo, bond)])])
  {
    var utxo := CommentBond(b.nextCommentId, md.txId);
    var r := ContractRollback(SubmittedComment, Some(b.nextCommentId), Some(bond), [(utxo, bond)]);
    var b' := Post(b, author, text, bond, md);
    assert (stack + [r])[..|stack|] == stack;
    assert b'.comments[..|b.comments|] == b.comments;
    assert utxo !in b.lockedUtxos;
    assert b.lockedUtxos - {utxo} == b.lockedUtxos;
    SumPut(b.lockedUtxos, utxo, bond);
    MatchesFrame(b.lockedUtxos, b'.lockedUtxos, b.comments, stack, b.nextCommentId);
  }

  /** Every command, accepted or refused, keeps the books. */
  lemma ExecuteBalanced(b: Board, stack: seq<ContractRollback>, cmd: ContractCommand, auth: Option<PubKey>,
                        md: PayloadMetadata)
    requires Books(b, stack)
    ensures
      var (b', res) := Execute(b, cmd, auth, md);
      Books(b', if res.Ok? then stack + [res.value] else stack)
  {
    if CheckCommand(b, cmd, auth, md).None? {
      var (b', r) := Apply(b, cmd, auth.value, md);
      match cmd {
        case SubmitComment(text, bond, _, _) => PushComment(b, stack, auth.value, text, bond, md);
        case _ => PushPlain(b, stack, b', r);
      }
    }
  }

  /** Rolling back the newest entry. */

  lemma PopPlain(b: Board, stack: seq<ContractRollback>)
    requires Books(b, stack) && stack != [] && stack[|stack| - 1].operation != SubmittedComment
    ensures Books(Rollback(b, stack[|stack| - 1]).0, stack[..|stack| - 1])
    ensures
      var r := stack[|stack| - 1];
      r.bondAmount.Some? ==> r.bondAmount.value <= b.totalLockedValue
  {
    var r, rest := stack[|stack| - 1], stack[..|stack| - 1];
    var b' := Rollback(b, r).0;
    if r.operation == JoinedRoom {
      var (utxo, bond) := r.utxoChanges[0];
      assert r.utxoChanges[..0] == [];
      assert ReverseChanges(b.lockedUtxos, []) == b.lockedUtxos;
      SumWithout(b.lockedUtxos, utxo);
      SumPut(b.lockedUtxos, utxo, 0);
      MatchesFrame(b.lockedUtxos, b'.lockedUtxos, b.comments, rest, b.nextCommentId);
    }
  }

  lemma ReverseOne(locked: map<UtxoId, nat>, utxo: UtxoId, amount: nat)
    ensures ReverseChanges(locked, [(utxo, amount)]) == if amount > 0 then locked - {utxo} else locked[utxo := amount]
  {
    assert [(utxo, amount)][..0] == [];
    assert ReverseChanges(locked, []) == locked;
  }

  /** Rolling back the newest comment takes exactly that comment and its lock away. */
  lemma RollbackComment(b: Board, r: ContractRollback)
    requires WellFormed(r) && r.operation == SubmittedComment
    requires b.comments != [] && b.comments[|b.comments| - 1].id == r.commentId.value
    requires Increasing(b.comments, b.nextCommentId) && b.totalComments == |b.comments|
    ensures
      var (utxo, bond) := r.utxoChanges[0];
      Rollback(b, r).0 ==
      b.(comments := b.comments[..|b.comments| - 1],
         totalComments := b.totalComments - 1,
         totalLockedValue := SaturatingSub(b.totalLockedValue, bond),
         lockedUtxos := if bond > 0 then b.lockedUtxos - {utxo} else b.lockedUtxos[utxo := 0])
  {
    var last := |b.comments| - 1;
    WithoutLast(b.comments[..last], b.comments[last].id);
    assert r.utxoChanges == [r.utxoChanges[0]];
    ReverseOne(b.lockedUtxos, r.utxoChanges[0].0, r.utxoChanges[0].1);
  }

  lemma PopComment(b: Board, stack: seq<ContractRollback>)
    requires Books(b, stack) && stack != [] && stack[|stack| - 1].operation == SubmittedComment
    ensures Books(Rollback(b, stack[|stack| - 1]).0, stack[..|stack| - 1])
    ensures stack[|stack| - 1].bondAmount.value <= b.totalLockedValue && b.totalComments > 0
  {
    var r, rest := stack[|stack| - 1], stack[..|stack| - 1];
    var (utxo, bond) := r.utxoChanges[0];
    var c := b.comments[|b.comments| - 1];
    RollbackComment(b, r);
    var b' := Rollback(b, r).0;
    IncreasingWeaken(b'.comments, c.id, b.nextCommentId);
    SumWithout(b.lockedUtxos, utxo);
    SumPut(b.lockedUtxos, utxo, 0);
    MatchesFrame(b.lockedUtxos, b'.lockedUtxos, b'.comments, rest, c.id);
  }

  /** Runs of commands and last-in-first-out rollbacks. */

  datatype BoardOp = Do(cmd: ContractCommand, auth: Option<PubKey>, md: PayloadMetadata) | Undo

  function RunOps(b: Board, stack: seq<ContractRollback>, ops: seq<BoardOp>): (Board, seq<ContractRollback>)
    decreases |ops|
  {
    if ops == [] then (b, stack)
    else
      match ops[0]
      case Do(cmd, auth, md) =>
        var (b', res) := Execute(b, cmd, auth, md);
        RunOps(b', if res.Ok? then stack + [res.value] else stack, ops[1..])
      case Undo =>
        if stack == [] then RunOps(b, stack, ops[1..])
        else RunOps(Rollback(b, stack[|stack| - 1]).0, stack[..|stack| - 1], ops[1..])
  }

  /** Bonds are conserved along every run: the locked value is the outstanding join bonds plus the
      live comments' bonds, the locked identifiers carry exactly the latter, and every comment is
      counted. */
  lemma {:induction false} BondsConserved(b: Board, stack: seq<ContractRollback>, ops: seq<BoardOp>)
    requires Books(b, stack)
    ensures Books(RunOps(b, stack, ops).0, RunOps(b, stack, ops).1)
    decreases |ops|
  {
    if ops != [] {
      match ops[0] {
        case Do(cmd, auth, md) =>
          ExecuteBalanced(b, stack, cmd, auth, md);
          var (b', res) := Execute(b, cmd, auth, md);
          BondsConserved(b', if res.Ok? then stack + [res.value] else stack, ops[1..]);
        case Undo =>
          if stack == [] {
            BondsConserved(b, stack, ops[1..]);
          } else {
            NeverSaturates(b, stack);
            BondsConserved(Rollback(b, stack[|stack| - 1]).0, stack[..|stack| - 1], ops[1..]);
          }
      }
    }
  }

  /** Popping keeps the books, and the saturating subtraction it performs never saturates. */
  lemma NeverSaturates(b: Board, stack: seq<ContractRollback>)
    requires Books(b, stack) && stack != []
    ensures
      var r := stack[|stack| - 1];
      && Books(Rollback(b, r).0, stack[..|stack| - 1])
      && (r.bondAmount.Some? ==>
            r.bondAmount.value <= b.totalLockedValue &&
            Rollback(b, r).0.totalLockedValue == b.totalLockedValue - r.bondAmount.value)
  {
    if stack[|stack| - 1].operation == SubmittedComment {
      PopComment(b, stack);
    } else {
      PopPlain(b, stack);
    }
  }

  /** The board as a whole is not handed back by rollback: members, authenticated users, comment
      ids and challenges stay. The one command it does undo exactly is a challenge that repeats
      the current one. */
  lemma UndoneExactlyIff(b: Board, stack: seq<ContractRollback>, cmd: ContractCommand, auth: Option<PubKey>,
                         md: PayloadMetadata)
    requires Books(b, stack) && Execute(b, cmd, auth, md).1.Ok?
    ensures
      var (b', res) := Execute(b, cmd, auth, md);
      Rollback(b', res.value).0 == b <==> cmd.RequestChallenge? && b.currentChallenge == Some(ChallengeOf(md))
  {
    var (b', res) := Execute(b, cmd, auth, md);
    var back := Rollback(b', res.value).0;
    match cmd {
      case JoinRoom(_) => assert |back.roomMembers| == |b.roomMembers| + 1;
      case RequestChallenge => assert ReverseChanges(b'.lockedUtxos, []) == b.lockedUtxos;
      case SubmitResponse(_, _) => assert |back.authenticatedUsers| == |b.authenticatedUsers| + 1;
      case SubmitComment(_, _, _, _) => assert back.nextCommentId == b.nextCommentId + 1;
    }
  }

  /** What rollback does hand back: the comments, their count and the locked value. */
  lemma AccountsRestored(b: Board, stack: seq<ContractRollback>, cmd: ContractCommand, auth: Option<PubKey>,
                         md: PayloadMetadata)
    requires Books(b, stack) && Execute(b, cmd, auth, md).1.Ok?
    ensures
      var (b', res) := Execute(b, cmd, auth, md);
      var back := Rollback(b', res.value).0;
      && back.comments == b.comments && back.totalComments == b.totalComments
      && back.totalLockedValue == b.totalLockedValue && Sum(back.lockedUtxos) == Sum(b.lockedUtxos)
  {
    ExecuteBalanced(b, stack, cmd, auth, md);
    var (b', res) := Execute(b, cmd, auth, md);
    NeverSaturates(b', stack + [res.value]);
    assert (stack + [res.value])[..|stack|] == stack;
    match cmd {
      case SubmitComment(text, bond, _, _) =>
        WithoutLast(b.comments, b.nextCommentId);
        assert b'.comments[..|b.comments|] == b.comments;
      case _ =>
    }
  }
}

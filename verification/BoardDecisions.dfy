/** Which commands the board accepts, what each changes, and that no bond is booked whose carrier is
    known not to hold it. */
module BoardDecisions {
  import opened Wrappers
  import opened Primitives
  import opened Episodes
  import BondDescriptor
  import opened CommentBoard
  import opened BondAccounting

  /** A comment's text must have a character that is not Unicode white space. */
  predicate Says(text: string) {
    exists i :: 0 <= i < |text| && text[i] as int !in WHITE_SPACE
  }

  const WHITE_SPACE: set<int> :=
    {9, 10, 11, 12, 13, 32, 133, 160, 5760, 8192, 8193, 8194, 8195, 8196, 8197, 8198, 8199, 8200, 8201, 8202,
     8232, 8233, 8239, 8287, 12288}

  lemma BlankIff(text: string)
    ensures Blank(text) <==> !Says(text)
  {
    forall c: char ensures IsSpace(c) <==> c as int in WHITE_SPACE {
    }
    if !Blank(text) {
      var c :| c in text && !IsSpace(c);
      var i :| 0 <= i < |text| && text[i] == c;
      assert text[i] as int !in WHITE_SPACE;
    }
    if Says(text) {
      var i :| 0 <= i < |text| && text[i] as int !in WHITE_SPACE;
      assert text[i] in text && !IsSpace(text[i]);
    }
  }

  /** The output at the given place is worth exactly the bond, and if its script and the declared one are
      both known and the former decodes, they are the same; without a place, some output is worth it. */
  ghost predicate Carries(
    outs: seq<TxOutputInfo>, bond: nat, index: Option<nat>, script: Option<BondDescriptor.BondScriptKind>)
  {
    match index
    case None => exists o :: o in outs && o.value >= bond
    case Some(i) =>
      && i < |outs| && outs[i].value == bond
      && (script.Some? && outs[i].scriptBytes.Some? && BondDescriptor.Decoded(outs[i].scriptBytes.value).Some? ==>
            BondDescriptor.Decoded(outs[i].scriptBytes.value) == script)
  }

  /** A comment is accepted from a signer, before the board expires, if it says something, and its bond,
      unless it is zero, is allowed, large enough, and carried by the transaction's outputs when known. */
  lemma SubmitCommentIff(
    b: Board, text: string, bond: nat, index: Option<nat>, script: Option<BondDescriptor.BondScriptKind>,
    auth: Option<PubKey>, md: PayloadMetadata)
    ensures
      Execute(b, SubmitComment(text, bond, index, script), auth, md).1.Ok? <==>
      && auth.Some? && md.acceptingTime <= b.expiresAt && Says(text)
      && (bond > 0 ==>
            && b.rules.bondsEnabled && bond >= b.rules.minBond
            && (md.txOutputs.Some? ==> Carries(md.txOutputs.value, bond, index, script)))
  {
    BlankIff(text);
  }

  /** Which error a refused comment gets: the first of these that applies. */
  lemma SubmitCommentRefusals(
    b: Board, text: string, bond: nat, index: Option<nat>, script: Option<BondDescriptor.BondScriptKind>,
    auth: Option<PubKey>, md: PayloadMetadata)
    ensures
      var res := Execute(b, SubmitComment(text, bond, index, script), auth, md).1;
      if auth.None? then res == Err(Unauthorized)
      else if md.acceptingTime > b.expiresAt then res == Err(InvalidCommand(ContractExpired))
      else if !Says(text) then res == Err(InvalidCommand(EmptyComment))
      else if bond > 0 && !b.rules.bondsEnabled then res == Err(InvalidCommand(BondsDisabled))
      else if 0 < bond < b.rules.minBond then res == Err(InvalidCommand(InsufficientBond(b.rules.minBond, bond)))
      else if bond > 0 && md.txOutputs.Some? && !Carries(md.txOutputs.value, bond, index, None)
      then res == Err(InvalidCommand(InsufficientBond(bond, 0)))
      else if bond > 0 && md.txOutputs.Some? && !Carries(md.txOutputs.value, bond, index, script)
      then res == Err(InvalidCommand(DescriptorMismatch))
      else res.Ok?
  {
    BlankIff(text);
  }

  /** What an accepted comment changes. */
  lemma SubmitCommentWrites(
    b: Board, text: string, bond: nat, index: Option<nat>, script: Option<BondDescriptor.BondScriptKind>,
    auth: Option<PubKey>, md: PayloadMetadata)
    requires Execute(b, SubmitComment(text, bond, index, script), auth, md).1.Ok?
    ensures auth.Some?
    ensures
      var (b', res) := Execute(b, SubmitComment(text, bond, index, script), auth, md);
      var id := b.nextCommentId;
      && res.value == ContractRollback(SubmittedComment, Some(id), Some(bond), [(CommentBond(id, md.txId), bond)])
      && b' == b.(comments := b.comments + [Comment(id, text, auth.value, md.acceptingTime, bond)],
                  totalComments := b.totalComments + 1, totalLockedValue := b.totalLockedValue + bond,
                  lockedUtxos := b.lockedUtxos[CommentBond(id, md.txId) := bond], nextCommentId := id + 1)
  {
  }

  /** Anybody who signs may join while the board lives, with any bond. */
  lemma JoinRoomIff(b: Board, bond: nat, auth: Option<PubKey>, md: PayloadMetadata)
    ensures
      var (b', res) := Execute(b, JoinRoom(bond), auth, md);
      && (res.Ok? <==> auth.Some? && md.acceptingTime <= b.expiresAt)
      && (res == Err(Unauthorized) <==> auth.None?)
      && (res == Err(InvalidCommand(ContractExpired)) <==> auth.Some? && md.acceptingTime > b.expiresAt)
      && (res.Ok? ==>
            && res.value == ContractRollback(JoinedRoom, None, Some(bond), [(JoinBond(auth.value), bond)])
            && b' == b.(roomMembers := b.roomMembers + [auth.value], totalLockedValue := b.totalLockedValue + bond))
  {
  }

  /** Anybody who signs may ask for a challenge: it is the hexadecimal id of the asking transaction. */
  lemma RequestChallengeIff(b: Board, auth: Option<PubKey>, md: PayloadMetadata)
    ensures
      var (b', res) := Execute(b, RequestChallenge, auth, md);
      && (res.Ok? <==> auth.Some? && md.acceptingTime <= b.expiresAt)
      && (res == Err(Unauthorized) <==> auth.None?)
      && (res == Err(InvalidCommand(ContractExpired)) <==> auth.Some? && md.acceptingTime > b.expiresAt)
      && (res.Ok? ==>
            && res.value == ContractRollback(Challenged, None, None, [])
            && b'.currentChallenge.Some? && b' == b.(currentChallenge := b'.currentChallenge)
            && |b'.currentChallenge.value| == 69 && b'.currentChallenge.value[..5] == "auth_"
            && forall i :: 0 <= i < 32 ==>
                 && b'.currentChallenge.value[5 + 2 * i] == "0123456789abcdef"[md.txId.bytes[i] / 16]
                 && b'.currentChallenge.value[6 + 2 * i] == "0123456789abcdef"[md.txId.bytes[i] % 16])
  {
    HexDigits(md.txId.bytes);
  }

  lemma {:induction false} HexDigits(bytes: seq<Byte>)
    ensures |Hex(bytes)| == 2 * |bytes|
    ensures forall i :: 0 <= i < |bytes| ==>
      && Hex(bytes)[2 * i] == "0123456789abcdef"[bytes[i] / 16]
      && Hex(bytes)[2 * i + 1] == "0123456789abcdef"[bytes[i] % 16]
  {
    if bytes != [] {
      HexDigits(bytes[1..]);
      forall i | 1 <= i < |bytes|
        ensures Hex(bytes)[2 * i] == Hex(bytes[1..])[2 * (i - 1)]
        ensures Hex(bytes)[2 * i + 1] == Hex(bytes[1..])[2 * (i - 1) + 1]
      {
      }
    }
  }

  /** A response is accepted if it answers the current challenge, with any signature but the empty one. */
  lemma SubmitResponseIff(b: Board, signature: string, nonce: string, auth: Option<PubKey>, md: PayloadMetadata)
    ensures
      var (b', res) := Execute(b, SubmitResponse(signature, nonce), auth, md);
      var answers := b.currentChallenge == Some(nonce) && |signature| > 0;
      && (res.Ok? <==> auth.Some? && md.acceptingTime <= b.expiresAt && answers)
      && (res == Err(Unauthorized) <==> auth.None?)
      && (res == Err(InvalidCommand(ContractExpired)) <==> auth.Some? && md.acceptingTime > b.expiresAt)
      && (res == Err(InvalidCommand(UserNotAuthenticated)) <==>
            auth.Some? && md.acceptingTime <= b.expiresAt && !answers)
      && (res.Ok? ==>
            && res.value == ContractRollback(Authenticated, None, None, [])
            && b' == b.(authenticatedUsers := b.authenticatedUsers + [auth.value], currentChallenge := None))
  {
  }

  /** A refused command changes nothing. */
  lemma RefusedUnchanged(b: Board, cmd: ContractCommand, auth: Option<PubKey>, md: PayloadMetadata)
    ensures Execute(b, cmd, auth, md).1.Err? ==> Execute(b, cmd, auth, md).0 == b
  {
  }

  /** A new board: empty, and expiring 90 days after it was created, but not before a fixed date. */
  lemma NewBoard(rules: RoomRules, md: PayloadMetadata)
    ensures
      var b := Initialize(rules, md);
      && b.rules == rules && b.comments == [] && b.lockedUtxos == map[] && b.roomMembers == []
      && b.authenticatedUsers == [] && b.currentChallenge == None
      && b.totalComments == 0 && b.totalLockedValue == 0 && b.nextCommentId == 1
      && b.expiresAt >= md.acceptingTime + 7776000 && b.expiresAt >= 2000000000
      && (b.expiresAt == md.acceptingTime + 7776000 || b.expiresAt == 2000000000)
  {
  }

  /** Whole runs: every positive lock was made by an accepted comment, and if that comment's transaction
      told its outputs, one of them held the bond. */

  ghost predicate LockedBy(op: BoardOp, utxo: UtxoId, bond: nat) {
    && op.Do? && op.cmd.SubmitComment? && op.cmd.bondAmount == bond
    && utxo.CommentBond? && utxo.txId == op.md.txId
    && (op.md.txOutputs.Some? ==> exists o :: o in op.md.txOutputs.value && o.value >= bond)
  }

  ghost predicate LocksCovered(locked: map<UtxoId, nat>, ops: seq<BoardOp>) {
    forall utxo :: utxo in locked && locked[utxo] > 0 ==> exists op :: op in ops && LockedBy(op, utxo, locked[utxo])
  }

  lemma CoveredMore(locked: map<UtxoId, nat>, ops: seq<BoardOp>, op: BoardOp)
    requires LocksCovered(locked, ops)
    ensures LocksCovered(locked, ops + [op])
  {
    forall utxo | utxo in locked && locked[utxo] > 0
      ensures exists op' :: op' in ops + [op] && LockedBy(op', utxo, locked[utxo])
    {
      var op' :| op' in ops && LockedBy(op', utxo, locked[utxo]);
      assert op' in ops + [op];
    }
  }

  lemma {:induction false} ReverseKeeps(locked: map<UtxoId, nat>, changes: seq<(UtxoId, nat)>)
    ensures
      var after := ReverseChanges(locked, changes);
      forall utxo :: utxo in after && after[utxo] > 0 ==> utxo in locked && locked[utxo] == after[utxo]
    decreases |changes|
  {
    if changes != [] {
      ReverseKeeps(locked, changes[..|changes| - 1]);
    }
  }

  /** One command adds at most a lock that is covered. */
  lemma ExecuteCovers(b: Board, cmd: ContractCommand, auth: Option<PubKey>, md: PayloadMetadata, ops: seq<BoardOp>)
    requires LocksCovered(b.lockedUtxos, ops)
    ensures LocksCovered(Execute(b, cmd, auth, md).0.lockedUtxos, ops + [Do(cmd, auth, md)])
  {
    var op := Do(cmd, auth, md);
    CoveredMore(b.lockedUtxos, ops, op);
    if cmd.SubmitComment? && Execute(b, cmd, auth, md).1.Ok? {
      SubmitCommentIff(b, cmd.text, cmd.bondAmount, cmd.bondOutputIndex, cmd.bondScript, auth, md);
      SubmitCommentWrites(b, cmd.text, cmd.bondAmount, cmd.bondOutputIndex, cmd.bondScript, auth, md);
      var utxo := CommentBond(b.nextCommentId, md.txId);
      if cmd.bondAmount > 0 {
        if md.txOutputs.Some? && cmd.bondOutputIndex.Some? {
          assert md.txOutputs.value[cmd.bondOutputIndex.value] in md.txOutputs.value;
        }
        assert LockedBy(op, utxo, cmd.bondAmount) && op in ops + [op];
      }
    } else {
      LocksUnchanged(b, cmd, auth, md);
    }
  }

  lemma LocksUnchanged(b: Board, cmd: ContractCommand, auth: Option<PubKey>, md: PayloadMetadata)
    requires !(cmd.SubmitComment? && Execute(b, cmd, auth, md).1.Ok?)
    ensures Execute(b, cmd, auth, md).0.lockedUtxos == b.lockedUtxos
  {
  }

  lemma RollbackCovers(b: Board, r: ContractRollback, ops: seq<BoardOp>)
    requires LocksCovered(b.lockedUtxos, ops)
    ensures LocksCovered(Rollback(b, r).0.lockedUtxos, ops)
  {
    ReverseKeeps(b.lockedUtxos, r.utxoChanges);
    var after := ReverseChanges(b.lockedUtxos, r.utxoChanges);
    assert Rollback(b, r).0.lockedUtxos == after;
    forall utxo | utxo in after && after[utxo] > 0 ensures exists op :: op in ops && LockedBy(op, utxo, after[utxo]) {
      assert utxo in b.lockedUtxos && b.lockedUtxos[utxo] == after[utxo];
    }
  }

  /** In every state of every run of commands and rollbacks, from a board whose locks are covered by the
      commands that led to it. */
  lemma {:induction false} LocksStayCovered(
    b: Board, stack: seq<ContractRollback>, before: seq<BoardOp>, ops: seq<BoardOp>)
    requires LocksCovered(b.lockedUtxos, before)
    ensures LocksCovered(RunOps(b, stack, ops).0.lockedUtxos, before + ops)
    decreases |ops|
  {
    if ops == [] {
      assert before + [] == before;
    } else {
      assert before + ops == before + [ops[0]] + ops[1..];
      match ops[0] {
        case Do(cmd, auth, md) =>
          ExecuteCovers(b, cmd, auth, md, before);
          var (b', res) := Execute(b, cmd, auth, md);
          LocksStayCovered(b', if res.Ok? then stack + [res.value] else stack, before + [ops[0]], ops[1..]);
        case Undo =>
          CoveredMore(b.lockedUtxos, before, ops[0]);
          if stack == [] {
            LocksStayCovered(b, stack, before + [ops[0]], ops[1..]);
          } else {
            RollbackCovers(b, stack[|stack| - 1], before + [ops[0]]);
            LocksStayCovered(Rollback(b, stack[|stack| - 1]).0, stack[..|stack| - 1], before + [ops[0]], ops[1..]);
          }
      }
    }
  }

  /** From a new board. */
  lemma LocksAreCovered(rules: RoomRules, md: PayloadMetadata, ops: seq<BoardOp>)
    ensures LocksCovered(RunOps(Initialize(rules, md), [], ops).0.lockedUtxos, ops)
  {
    LocksStayCovered(Initialize(rules, md), [], [], ops);
    assert [] + ops == ops;
  }
}

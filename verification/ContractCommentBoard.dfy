/** The comment board as the source runs it: fields updated in place, proved to follow CommentBoard. */
module ContractCommentBoards {
  import opened Wrappers
  import opened Primitives
  import opened Episodes
  import BondDescriptor
  import opened CommentBoard

  class ContractCommentBoard {
    const rules: RoomRules
    const expiresAt: nat
    var comments: seq<Comment>
    var totalComments: nat
    var totalLockedValue: nat
    var lockedUtxos: map<UtxoId, nat>
    var nextCommentId: nat
    var roomMembers: seq<PubKey>
    var authenticatedUsers: seq<PubKey>
    var currentChallenge: Option<string>

    ghost function View(): Board
      reads this
    {
      Board(rules, expiresAt, comments, totalComments, totalLockedValue, lockedUtxos, nextCommentId,
            roomMembers, authenticatedUsers, currentChallenge)
    }

    constructor (rules: RoomRules, md: PayloadMetadata)
      ensures View() == Initialize(rules, md)
    {
      this.rules := rules;
      expiresAt := if md.acceptingTime + LIFETIME > NOT_BEFORE then md.acceptingTime + LIFETIME else NOT_BEFORE;
      comments, totalComments, totalLockedValue := [], 0, 0;
      lockedUtxos, nextCommentId := map[], 1;
      roomMembers, authenticatedUsers, currentChallenge := [], [], None;
    }

    method ExecuteCommand(cmd: ContractCommand, auth: Option<PubKey>, md: PayloadMetadata) returns (res: Outcome)
      modifies this
      ensures (View(), res) == Execute(old(View()), cmd, auth, md)
    {
      if auth.None? {
        return Err(Unauthorized);
      }
      if md.acceptingTime > expiresAt {
        return Err(InvalidCommand(ContractExpired));
      }
      match cmd {
        case JoinRoom(bond) => res := ExecuteJoinRoom(auth.value, bond);
        case RequestChallenge =>
          currentChallenge := Some(ChallengeOf(md));
          res := Ok(ContractRollback(Challenged, None, None, []));
        case SubmitResponse(signature, nonce) => res := ExecuteSubmitResponse(auth.value, signature, nonce);
        case SubmitComment(text, bond, index, script) =>
          res := ExecuteSubmitComment(auth.value, text, bond, index, script, md);
      }
    }

    method ExecuteJoinRoom(participant: PubKey, bond: nat) returns (res: Outcome)
      modifies this
      ensures View() == Join(old(View()), participant, bond)
      ensures res == Ok(ContractRollback(JoinedRoom, None, Some(bond), [(JoinBond(participant), bond)]))
    {
      roomMembers := roomMembers + [participant];
      totalLockedValue := totalLockedValue + bond;
      return Ok(ContractRollback(JoinedRoom, None, Some(bond), [(JoinBond(participant), bond)]));
    }

    method ExecuteSubmitResponse(participant: PubKey, signature: string, nonce: string) returns (res: Outcome)
      modifies this
      ensures
        if old(currentChallenge) == Some(nonce) && signature != ""
        then res == Ok(ContractRollback(Authenticated, None, None, []))
             && View() == old(View()).(authenticatedUsers := old(authenticatedUsers) + [participant],
                                       currentChallenge := None)
        else res == Err(InvalidCommand(UserNotAuthenticated)) && View() == old(View())
    {
      if currentChallenge.Some? && nonce == currentChallenge.value && signature != "" {
        authenticatedUsers := authenticatedUsers + [participant];
        currentChallenge := None;
        return Ok(ContractRollback(Authenticated, None, None, []));
      }
      return Err(InvalidCommand(UserNotAuthenticated));
    }

    method CheckBond(bond: nat, index: Option<nat>, script: Option<BondDescriptor.BondScriptKind>, md: PayloadMetadata)
      returns (error: Option<ContractError>)
      ensures error == BondError(View(), bond, index, script, md)
    {
      if bond == 0 {
        return None;
      }
      if !rules.bondsEnabled {
        return Some(BondsDisabled);
      }
      if bond < rules.minBond {
        return Some(InsufficientBond(rules.minBond, bond));
      }
      if md.txOutputs.Some? {
        var outputs := md.txOutputs.value;
        if index.Some? {
          var i := index.value;
          if i >= |outputs| || outputs[i].value != bond {
            return Some(InsufficientBond(bond, 0));
          }
          if script.Some? && outputs[i].scriptBytes.Some? {
            var onchain := BondDescriptor.Decode(outputs[i].scriptBytes.value);
            if onchain.Some? && onchain != script {
              return Some(DescriptorMismatch);
            }
          }
        } else if !exists o :: o in outputs && o.value >= bond {
          return Some(InsufficientBond(bond, 0));
        }
      }
      return None;
    }

    method ExecuteSubmitComment(participant: PubKey, text: string, bond: nat, index: Option<nat>,
                                script: Option<BondDescriptor.BondScriptKind>, md: PayloadMetadata)
      returns (res: Outcome)
      requires md.acceptingTime <= expiresAt
      modifies this
      ensures (View(), res) == Execute(old(View()), SubmitComment(text, bond, index, script), Some(participant), md)
    {
      if Blank(text) {
        return Err(InvalidCommand(EmptyComment));
      }
      var error := CheckBond(bond, index, script, md);
      if error.Some? {
        return Err(InvalidCommand(error.value));
      }
      var commentId := nextCommentId;
      var utxo := CommentBond(commentId, md.txId);
      lockedUtxos := lockedUtxos[utxo := bond];
      comments := comments + [Comment(commentId, text, participant, md.acceptingTime, bond)];
      totalComments := totalComments + 1;
      totalLockedValue := totalLockedValue + bond;
      nextCommentId := nextCommentId + 1;
      return Ok(ContractRollback(SubmittedComment, Some(commentId), Some(bond), [(utxo, bond)]));
    }

    method RollbackCommand(r: ContractRollback) returns (ok: bool)
      modifies this
      ensures (View(), ok) == Rollback(old(View()), r)
    {
      var i := 0;
      while i < |r.utxoChanges|
        invariant 0 <= i <= |r.utxoChanges|
        invariant View() == old(View()).(lockedUtxos := ReverseChanges(old(lockedUtxos), r.utxoChanges[..i]))
      {
        var (utxo, amount) := r.utxoChanges[i];
        assert r.utxoChanges[..i + 1][..i] == r.utxoChanges[..i];
        if amount > 0 {
          lockedUtxos := lockedUtxos - {utxo};
        } else {
          lockedUtxos := lockedUtxos[utxo := amount];
        }
        i := i + 1;
      }
      assert r.utxoChanges[..i] == r.utxoChanges;
      if r.operation == SubmittedComment {
        if r.commentId.Some? {
          var before := |comments|;
          comments := WithoutComment(comments, r.commentId.value);
          if totalComments > 0 && |comments| < before {
            totalComments := totalComments - 1;
          }
          if r.bondAmount.Some? {
            totalLockedValue := SaturatingSub(totalLockedValue, r.bondAmount.value);
          }
        }
      } else if r.operation == JoinedRoom {
        if r.bondAmount.Some? {
          totalLockedValue := SaturatingSub(totalLockedValue, r.bondAmount.value);
        }
      }
      return true;
    }
  }
}

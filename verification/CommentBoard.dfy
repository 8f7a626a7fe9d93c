/** What the bonded comment board (comment-board/src/episode/board_with_contract.rs) computes. */
module CommentBoard {
  import opened Wrappers
  import opened Primitives
  import opened Episodes
  import opened BondDescriptor

  datatype ContractCommand =
    | JoinRoom(bondAmount: nat)
    | RequestChallenge
    | SubmitResponse(signature: string, nonce: string)
    | SubmitComment(text: string, bondAmount: nat, bondOutputIndex: Option<nat>, bondScript: Option<BondScriptKind>)

  datatype ContractError =
    | ContractExpired | UserNotAuthenticated | EmptyComment | BondsDisabled
    | InsufficientBond(required: nat, provided: nat) | DescriptorMismatch

  /** The identifiers the source formats as strings: "comment_bond_<id>_<tx>", "join_bond_<key>". */
  datatype UtxoId = CommentBond(commentId: nat, txId: Hash) | JoinBond(member: PubKey)

  datatype Operation = JoinedRoom | Challenged | Authenticated | SubmittedComment

  datatype ContractRollback = ContractRollback(
    operation: Operation, commentId: Option<nat>, bondAmount: Option<nat>, utxoChanges: seq<(UtxoId, nat)>)

  datatype Comment = Comment(id: nat, text: string, author: PubKey, timestamp: nat, bondAmount: nat)

  datatype RoomRules = RoomRules(bondsEnabled: bool, minBond: nat)

  datatype Board = Board(
    rules: RoomRules,
    expiresAt: nat,
    comments: seq<Comment>,
    totalComments: nat,
    totalLockedValue: nat,
    lockedUtxos: map<UtxoId, nat>,
    nextCommentId: nat,
    roomMembers: seq<PubKey>,
    authenticatedUsers: seq<PubKey>,
    currentChallenge: Option<string>)

  type Outcome = Result<ContractRollback, EpisodeError<ContractError>>

  const LIFETIME: nat := 7776000
  const NOT_BEFORE: nat := 2000000000

  /** A board before anything happened to it. Its rules come from configuration. */
  function Initialize(rules: RoomRules, md: PayloadMetadata): Board {
    var expires := md.acceptingTime + LIFETIME;
    Board(rules, if expires > NOT_BEFORE then expires else NOT_BEFORE, [], 0, 0, map[], 1, [], [], None)
  }

  /** Unicode white space, which trimming removes. */
  predicate IsSpace(c: char) {
    var n := c as int;
    9 <= n <= 13 || n == 0x20 || n == 0x85 || n == 0xA0 || n == 0x1680 || 0x2000 <= n <= 0x200A
    || n == 0x2028 || n == 0x2029 || n == 0x202F || n == 0x205F || n == 0x3000
  }

  predicate Blank(text: string) {
    forall c :: c in text ==> IsSpace(c)
  }

  function HexDigit(n: nat): char
    requires n < 16
  {
    "0123456789abcdef"[n]
  }

  function Hex(bytes: seq<Byte>): string {
    if bytes == [] then "" else [HexDigit(bytes[0] / 16), HexDigit(bytes[0] % 16)] + Hex(bytes[1..])
  }

  function ChallengeOf(md: PayloadMetadata): string {
    "auth_" + Hex(md.txId.bytes)
  }

  /** The carrier's outputs, when known, must carry the declared bond. */
  function OutputsError(outputs: seq<TxOutputInfo>, bond: nat, index: Option<nat>, script: Option<BondScriptKind>)
    : Option<ContractError>
  {
    match index
    case None => if exists o :: o in outputs && o.value >= bond then None else Some(InsufficientBond(bond, 0))
    case Some(i) =>
      if i >= |outputs| || outputs[i].value != bond then Some(InsufficientBond(bond, 0))
      else if script.Some? && outputs[i].scriptBytes.Some? && Decoded(outputs[i].scriptBytes.value).Some?
              && Decoded(outputs[i].scriptBytes.value) != script then Some(DescriptorMismatch)
      else None
  }

  function BondError(b: Board, bond: nat, index: Option<nat>, script: Option<BondScriptKind>, md: PayloadMetadata)
    : Option<ContractError>
  {
    if bond == 0 then None
    else if !b.rules.bondsEnabled then Some(BondsDisabled)
    else if bond < b.rules.minBond then Some(InsufficientBond(b.rules.minBond, bond))
    else if md.txOutputs.Some? then OutputsError(md.txOutputs.value, bond, index, script)
    else None
  }

  function CheckCommand(b: Board, cmd: ContractCommand, auth: Option<PubKey>, md: PayloadMetadata)
    : Option<EpisodeError<ContractError>>
  {
    if auth.None? then Some(Unauthorized)
    else if md.acceptingTime > b.expiresAt then Some(InvalidCommand(ContractExpired))
    else
      match cmd
      case JoinRoom(_) => None
      case RequestChallenge => None
      case SubmitResponse(signature, nonce) =>
        if b.currentChallenge == Some(nonce) && signature != "" then None
        else Some(InvalidCommand(UserNotAuthenticated))
      case SubmitComment(text, bond, index, script) =>
        if Blank(text) then Some(InvalidCommand(EmptyComment))
        else
          var error := BondError(b, bond, index, script, md);
          if error.Some? then Some(InvalidCommand(error.value)) else None
  }

  function Join(b: Board, member: PubKey, bond: nat): Board {
    b.(roomMembers := b.roomMembers + [member], totalLockedValue := b.totalLockedValue + bond)
  }

  function Post(b: Board, author: PubKey, text: string, bond: nat, md: PayloadMetadata): Board {
    b.(lockedUtxos := b.lockedUtxos[CommentBond(b.nextCommentId, md.txId) := bond],
       comments := b.comments + [Comment(b.nextCommentId, text, author, md.acceptingTime, bond)],
       totalComments := b.totalComments + 1,
       totalLockedValue := b.totalLockedValue + bond,
       nextCommentId := b.nextCommentId + 1)
  }

  function Apply(b: Board, cmd: ContractCommand, participant: PubKey, md: PayloadMetadata): (Board, ContractRollback) {
    match cmd
    case JoinRoom(bond) =>
      (Join(b, participant, bond), ContractRollback(JoinedRoom, None, Some(bond), [(JoinBond(participant), bond)]))
    case RequestChallenge =>
      (b.(currentChallenge := Some(ChallengeOf(md))), ContractRollback(Challenged, None, None, []))
    case SubmitResponse(_, _) =>
      (b.(authenticatedUsers := b.authenticatedUsers + [participant], currentChallenge := None),
       ContractRollback(Authenticated, None, None, []))
    case SubmitComment(text, bond, _, _) =>
      (Post(b, participant, text, bond, md),
       ContractRollback(SubmittedComment, Some(b.nextCommentId), Some(bond),
                        [(CommentBond(b.nextCommentId, md.txId), bond)]))
  }

  function Execute(b: Board, cmd: ContractCommand, auth: Option<PubKey>, md: PayloadMetadata): (Board, Outcome) {
    var error := CheckCommand(b, cmd, auth, md);
    if error.Some? then (b, Err(error.value))
    else
      var (b', rollback) := Apply(b, cmd, auth.value, md);
      (b', Ok(rollback))
  }

  function SaturatingSub(a: nat, b: nat): nat {
    if a >= b then a - b else 0
  }

  /** A positive change was a lock and is removed; a zero change is written back. */
  function ReverseChanges(locked: map<UtxoId, nat>, changes: seq<(UtxoId, nat)>): map<UtxoId, nat>
    decreases |changes|
  {
    if changes == [] then locked
    else
      var last := |changes| - 1;
      var (utxo, amount) := changes[last];
      var before := ReverseChanges(locked, changes[..last]);
      if amount > 0 then before - {utxo} else before[utxo := amount]
  }

  function WithoutComment(comments: seq<Comment>, id: nat): seq<Comment> {
    if comments == [] then []
    else
      var last := |comments| - 1;
      if comments[last].id == id then WithoutComment(comments[..last], id)
      else WithoutComment(comments[..last], id) + [comments[last]]
  }

  function Unlock(b: Board, bond: Option<nat>): Board {
    if bond.Some? then b.(totalLockedValue := SaturatingSub(b.totalLockedValue, bond.value)) else b
  }

  function Rollback(b: Board, r: ContractRollback): (Board, bool) {
    var b1 := b.(lockedUtxos := ReverseChanges(b.lockedUtxos, r.utxoChanges));
    if r.operation == SubmittedComment && r.commentId.Some? then
      var kept := WithoutComment(b1.comments, r.commentId.value);
      var total := if b1.totalComments > 0 && |kept| < |b1.comments| then b1.totalComments - 1 else b1.totalComments;
      (Unlock(b1.(comments := kept, totalComments := total), r.bondAmount), true)
    else if r.operation == JoinedRoom then (Unlock(b1, r.bondAmount), true)
    else (b1, true)
  }
}

/** The compact bond script descriptor (comment-board/src/wallet/kaspa_scripts.rs). */
module BondDescriptor {
  import opened Wrappers
  import opened Primitives
  import opened LittleEndian

  datatype BondScriptKind =
    | P2PK
    | TimeLock(unlockTime: U64)
    | ModeratorMultisig(requiredSignatures: Byte, moderatorCount: Byte)
    | TimeOrModerator(unlockTime: U64, requiredSignatures: Byte, moderatorCount: Byte)

  const KEY_LENGTH: nat := 33

  function Concat(keys: seq<PubKey>): seq<Byte> {
    if keys == [] then [] else Concat(keys[..|keys| - 1]) + keys[|keys| - 1].serialized
  }

  lemma {:induction false} ConcatLength(keys: seq<PubKey>)
    ensures |Concat(keys)| == KEY_LENGTH * |keys|
  {
    if keys != [] {
      ConcatLength(keys[..|keys| - 1]);
    }
  }

  /** The moderator keys an encoding carries: those supplied, up to the count. */
  function Carried(moderators: Option<seq<PubKey>>, count: nat): seq<PubKey> {
    match moderators
    case None => []
    case Some(keys) => if |keys| <= count then keys else keys[..count]
  }

  /** What the encoder writes. */
  function Encoded(d: BondScriptKind, user: PubKey, moderators: Option<seq<PubKey>>): seq<Byte> {
    match d
    case P2PK => [1] + user.serialized
    case TimeLock(t) => [2] + ToLE(t, 8) + user.serialized
    case ModeratorMultisig(req, cnt) => [3, req, cnt] + Concat(Carried(moderators, cnt)) + user.serialized
    case TimeOrModerator(t, req, cnt) =>
      [4] + ToLE(t, 8) + [req, cnt] + Concat(Carried(moderators, cnt)) + user.serialized
  }

  /** What the decoder accepts: bytes after the fields it reads are ignored. */
  function Decoded(bytes: seq<Byte>): Option<BondScriptKind> {
    if bytes == [] then None
    else if bytes[0] == 1 && |bytes| >= 1 + KEY_LENGTH then Some(P2PK)
    else if bytes[0] == 2 && |bytes| >= 9 + KEY_LENGTH then Some(TimeLock(U64At(bytes, 1)))
    else if bytes[0] == 3 && |bytes| >= 3 && |bytes| >= 3 + KEY_LENGTH * bytes[2] + KEY_LENGTH
    then Some(ModeratorMultisig(bytes[1], bytes[2]))
    else if bytes[0] == 4 && |bytes| >= 11 && |bytes| >= 11 + KEY_LENGTH * bytes[10] + KEY_LENGTH
    then Some(TimeOrModerator(U64At(bytes, 1), bytes[9], bytes[10]))
    else None
  }

  function U64At(bytes: seq<Byte>, at: nat): U64
    requires at + 8 <= |bytes|
  {
    LEBounded(bytes[at..at + 8]);
    Ranges();
    FromLE(bytes[at..at + 8])
  }

  /** Whether enough moderator keys are supplied for the descriptor's count. */
  predicate EnoughKeys(d: BondScriptKind, moderators: Option<seq<PubKey>>) {
    (d.ModeratorMultisig? || d.TimeOrModerator?) ==>
      d.moderatorCount <= if moderators.Some? then |moderators.value| else 0
  }

  /** Decoding an encoded descriptor gives it back exactly when enough moderator keys were
      supplied, and nothing at all otherwise. */
  lemma DescriptorRoundTrip(d: BondScriptKind, user: PubKey, moderators: Option<seq<PubKey>>)
    ensures Decoded(Encoded(d, user, moderators)) == if EnoughKeys(d, moderators) then Some(d) else None
  {
    var bytes := Encoded(d, user, moderators);
    match d {
      case P2PK =>
      case TimeLock(t) =>
        Ranges();
        LERoundTrip(t, 8);
        assert bytes[1..9] == ToLE(t, 8);
      case ModeratorMultisig(req, cnt) =>
        ConcatLength(Carried(moderators, cnt));
      case TimeOrModerator(t, req, cnt) =>
        Ranges();
        LERoundTrip(t, 8);
        assert bytes[1..9] == ToLE(t, 8);
        assert bytes[9] == req && bytes[10] == cnt;
        ConcatLength(Carried(moderators, cnt));
    }
  }

  lemma {:induction false} ConcatAt(keys: seq<PubKey>, i: nat)
    requires i < |keys|
    ensures |Concat(keys)| == 33 * |keys| && Concat(keys)[33 * i..33 * i + 33] == keys[i].serialized
  {
    var last := |keys| - 1;
    ConcatLength(keys);
    ConcatLength(keys[..last]);
    if i < last {
      ConcatAt(keys[..last], i);
      assert Concat(keys)[33 * i..33 * i + 33] == Concat(keys[..last])[33 * i..33 * i + 33];
    }
  }

  /** The bytes at `at` are a moderator's 33 each, in order. */
  ghost predicate KeysAt(bytes: seq<Byte>, at: nat, keys: seq<PubKey>) {
    |bytes| >= at + 33 * |keys| &&
    forall i :: 0 <= i < |keys| ==> bytes[at + 33 * i..at + 33 * i + 33] == keys[i].serialized
  }

  lemma KeysPlaced(head: seq<Byte>, keys: seq<PubKey>, tail: seq<Byte>)
    ensures |head + Concat(keys) + tail| == |head| + 33 * |keys| + |tail|
    ensures KeysAt(head + Concat(keys) + tail, |head|, keys)
    ensures (head + Concat(keys) + tail)[|head| + 33 * |keys|..] == tail
  {
    ConcatLength(keys);
    var bytes := head + Concat(keys) + tail;
    forall i | 0 <= i < |keys|
      ensures bytes[|head| + 33 * i..|head| + 33 * i + 33] == keys[i].serialized
    {
      ConcatAt(keys, i);
      assert bytes[|head| + 33 * i..|head| + 33 * i + 33] == Concat(keys)[33 * i..33 * i + 33];
    }
  }

  /** The bytes of an encoding: the kind, a time in eight bytes, lowest first, the two counts, the
      moderator keys carried, and the user's key. */
  ghost predicate LaidOut(bytes: seq<Byte>, d: BondScriptKind, user: PubKey, keys: seq<PubKey>) {
    match d
    case P2PK => |bytes| == 34 && bytes[0] == 1 && bytes[1..] == user.serialized
    case TimeLock(t) =>
      && |bytes| == 42 && bytes[0] == 2 && FourAt(bytes, 1) + 0x1_0000_0000 * FourAt(bytes, 5) == t
      && bytes[9..] == user.serialized
    case ModeratorMultisig(req, cnt) =>
      && |bytes| == 36 + 33 * |keys| && bytes[0] == 3 && bytes[1] == req && bytes[2] == cnt
      && KeysAt(bytes, 3, keys) && bytes[3 + 33 * |keys|..] == user.serialized
    case TimeOrModerator(t, req, cnt) =>
      && |bytes| == 44 + 33 * |keys| && bytes[0] == 4
      && FourAt(bytes, 1) + 0x1_0000_0000 * FourAt(bytes, 5) == t && bytes[9] == req && bytes[10] == cnt
      && KeysAt(bytes, 11, keys) && bytes[11 + 33 * |keys|..] == user.serialized
  }

  /** As many moderator keys are carried as are supplied, but no more than counted. */
  lemma EncodedBytes(d: BondScriptKind, user: PubKey, moderators: Option<seq<PubKey>>)
    ensures
      var count := if d.ModeratorMultisig? || d.TimeOrModerator? then d.moderatorCount else 0;
      var keys := if moderators.None? then []
                  else if |moderators.value| <= count then moderators.value else moderators.value[..count];
      LaidOut(Encoded(d, user, moderators), d, user, keys)
  {
    match d {
      case P2PK =>
      case TimeLock(t) => TimePlaced(2, t, user.serialized);
      case ModeratorMultisig(req, cnt) => KeysPlaced([3, req, cnt], Carried(moderators, cnt), user.serialized);
      case TimeOrModerator(t, req, cnt) => TimeAndKeysPlaced(t, req, cnt, user, Carried(moderators, cnt));
    }
  }

  lemma TimeAndKeysPlaced(t: U64, req: Byte, cnt: Byte, user: PubKey, keys: seq<PubKey>)
    ensures LaidOut([4] + ToLE(t, 8) + [req, cnt] + Concat(keys) + user.serialized, TimeOrModerator(t, req, cnt), user,
                    keys)
  {
    var head, rest := [4] + ToLE(t, 8), Concat(keys) + user.serialized;
    var bytes := head + [req, cnt] + Concat(keys) + user.serialized;
    KeysPlaced(head + [req, cnt], keys, user.serialized);
    assert bytes[..9] == head;
    assert bytes == head + bytes[9..];
    TimePlaced(4, t, bytes[9..]);
  }

  /** A kind, a time and what follows. */
  lemma TimePlaced(kind: Byte, t: U64, rest: seq<Byte>)
    ensures
      var bytes := [kind] + ToLE(t, 8) + rest;
      && |bytes| == 9 + |rest| && bytes[0] == kind && FourAt(bytes, 1) + 0x1_0000_0000 * FourAt(bytes, 5) == t
      && bytes[9..] == rest
  {
    var bytes := [kind] + ToLE(t, 8) + rest;
    assert bytes[1..9] == ToLE(t, 8);
    WriteEight(bytes[1..9], t);
  }

  /** What decodes, byte by byte: the kind, enough bytes for what it counts and for one more key, and
      the numbers; what the keys are, and what follows them, is ignored. */
  lemma DecodedIff(bytes: seq<Byte>, d: BondScriptKind)
    ensures Decoded(bytes) == Some(d) <==>
      match d
      case P2PK => |bytes| >= 34 && bytes[0] == 1
      case TimeLock(t) =>
        |bytes| >= 42 && bytes[0] == 2 && FourAt(bytes, 1) + 0x1_0000_0000 * FourAt(bytes, 5) == t
      case ModeratorMultisig(req, cnt) =>
        |bytes| >= 3 && bytes[0] == 3 && bytes[1] == req && bytes[2] == cnt && |bytes| >= 36 + 33 * cnt
      case TimeOrModerator(t, req, cnt) =>
        && |bytes| >= 11 && bytes[0] == 4 && FourAt(bytes, 1) + 0x1_0000_0000 * FourAt(bytes, 5) == t
        && bytes[9] == req && bytes[10] == cnt && |bytes| >= 44 + 33 * cnt
  {
    if |bytes| >= 9 {
      ReadEight(bytes[1..9]);
    }
  }

  /** The encoder's pushes. */
  method Encode(d: BondScriptKind, user: PubKey, moderators: Option<seq<PubKey>>) returns (out: seq<Byte>)
    ensures out == Encoded(d, user, moderators)
  {
    match d {
      case P2PK =>
        out := [1];
      case TimeLock(t) =>
        out := [2] + ToLE(t, 8);
      case ModeratorMultisig(req, cnt) =>
        out := [3];
        out := out + [req];
        out := out + [cnt];
        out := PushKeys(out, moderators, cnt);
      case TimeOrModerator(t, req, cnt) =>
        out := [4] + ToLE(t, 8);
        out := out + [req];
        out := out + [cnt];
        assert out == [4] + ToLE(t, 8) + [req, cnt];
        out := PushKeys(out, moderators, cnt);
    }
    out := out + user.serialized;
  }

  method PushKeys(out: seq<Byte>, moderators: Option<seq<PubKey>>, count: nat) returns (longer: seq<Byte>)
    ensures longer == out + Concat(Carried(moderators, count))
  {
    longer := out;
    if moderators.Some? {
      var i := 0;
      var keys := Carried(moderators, count);
      while i < |moderators.value| && i < count
        invariant 0 <= i <= |keys|
        invariant longer == out + Concat(keys[..i])
      {
        longer := longer + moderators.value[i].serialized;
        assert keys[..i + 1][..i] == keys[..i];
        i := i + 1;
      }
      assert keys[..i] == keys;
    }
  }

  /** The decoder's cursor. */
  method Decode(bytes: seq<Byte>) returns (d: Option<BondScriptKind>)
    ensures d == Decoded(bytes)
  {
    if bytes == [] {
      return None;
    }
    var tag := bytes[0];
    var i := 1;
    var time: U64 := 0;
    if tag == 2 || tag == 4 {
      if i + 8 > |bytes| {
        return None;
      }
      time := U64At(bytes, i);
      i := i + 8;
    }
    var req, cnt: Byte := 0, 0;
    if tag == 3 || tag == 4 {
      if i + 2 > |bytes| {
        return None;
      }
      req := bytes[i];
      i := i + 1;
      cnt := bytes[i];
      i := i + 1;
      var need := cnt * KEY_LENGTH;
      if i + need > |bytes| {
        return None;
      }
      i := i + need;
    }
    if tag == 0 || tag > 4 {
      return None;
    }
    if i + KEY_LENGTH > |bytes| {
      return None;
    }
    i := i + KEY_LENGTH;
    match tag {
      case 1 => return Some(P2PK);
      case 2 => return Some(TimeLock(time));
      case 3 => return Some(ModeratorMultisig(req, cnt));
      case _ => return Some(TimeOrModerator(time, req, cnt));
    }
  }
}

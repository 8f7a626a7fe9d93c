/** From accepted transactions to engines (kdapp/src/proxy.rs). */
module Proxy {
  import opened Wrappers
  import opened Primitives
  import opened Episodes
  import opened LittleEndian
  import opened Payloads

  /** The engines' patterns, by the prefix that is unique to each. */
  type EngineMap = map<Prefix, Pattern>

  datatype MergedTx = MergedTx(id: Option<Hash>, payload: seq<Byte>, outputs: seq<TxOutputInfo>)

  datatype Delivered = Delivered(id: Hash, payload: seq<Byte>, outputs: Option<seq<TxOutputInfo>>)

  /** Accepted ids after the coinbase. */
  function AfterFirst<T>(items: seq<T>): seq<T> {
    if items == [] then [] else items[1..]
  }

  predicate Wanted(engines: EngineMap, id: Hash) {
    exists p :: p in engines && Matches(id, engines[p])
  }

  function Required(engines: EngineMap, ids: seq<Hash>): seq<Hash> {
    if ids == [] then []
    else
      var last := |ids| - 1;
      if Wanted(engines, ids[last])
      then Required(engines, ids[..last]) + [ids[last]]
      else Required(engines, ids[..last])
  }

  /** Collection. */

  /** The transactions looked at, in order: those of the blocks that could be fetched, without
      each block's first. */
  function Seen(blocks: seq<Option<seq<MergedTx>>>): seq<MergedTx> {
    if blocks == [] then []
    else
      var last := blocks[|blocks| - 1];
      Seen(blocks[..|blocks| - 1]) + if last.Some? then AfterFirst(last.value) else []
  }

  /** The first transaction with a given id. */
  function First(txs: seq<MergedTx>, id: Hash): Option<MergedTx> {
    if txs == [] then None
    else if txs[0].id == Some(id) then Some(txs[0])
    else First(txs[1..], id)
  }

  lemma {:induction false} FirstOfConcat(a: seq<MergedTx>, b: seq<MergedTx>, id: Hash)
    ensures First(a + b, id) == if First(a, id).Some? then First(a, id) else First(b, id)
  {
    if a == [] {
      assert a + b == b;
    } else {
      assert (a + b)[1..] == a[1..] + b;
      FirstOfConcat(a[1..], b, id);
    }
  }

  function PayloadOf(tx: Option<MergedTx>): Option<seq<Byte>> {
    if tx.Some? then Some(tx.value.payload) else None
  }

  function OutputsOf(tx: Option<MergedTx>): Option<seq<TxOutputInfo>> {
    if tx.Some? then Some(tx.value.outputs) else None
  }

  type PayloadMap = map<Hash, Option<seq<Byte>>>
  type OutputMap = map<Hash, Option<seq<TxOutputInfo>>>

  function IdSet(ids: seq<Hash>): set<Hash> {
    set id | id in ids
  }

  /** What has been collected of the required transactions after looking at some. */
  ghost predicate Collected(required: seq<Hash>, txs: seq<MergedTx>, payloads: PayloadMap, outputs: OutputMap) {
    && payloads.Keys == outputs.Keys == IdSet(required)
    && (forall id :: id in payloads ==>
          payloads[id] == PayloadOf(First(txs, id)) && outputs[id] == OutputsOf(First(txs, id)))
  }

  function Missing(payloads: PayloadMap): set<Hash> {
    set id | id in payloads && payloads[id].None?
  }

  /** Once nothing is missing, looking further would change nothing. */
  lemma NothingMissing(required: seq<Hash>, txs: seq<MergedTx>, more: seq<MergedTx>, payloads: PayloadMap,
                       outputs: OutputMap)
    requires Collected(required, txs, payloads, outputs) && Missing(payloads) == {}
    ensures Collected(required, txs + more, payloads, outputs)
  {
    forall id | id in payloads ensures First(txs + more, id) == First(txs, id) {
      FirstOfConcat(txs, more, id);
      assert id !in Missing(payloads);
    }
  }

  lemma CollectOne(required: seq<Hash>, txs: seq<MergedTx>, tx: MergedTx, payloads: PayloadMap, outputs: OutputMap)
    requires Collected(required, txs, payloads, outputs)
    ensures
      if tx.id.Some? && tx.id.value in payloads && payloads[tx.id.value].None?
      then
        var payloads' := payloads[tx.id.value := Some(tx.payload)];
        Collected(required, txs + [tx], payloads', outputs[tx.id.value := Some(tx.outputs)])
        && Missing(payloads') == Missing(payloads) - {tx.id.value} && tx.id.value in Missing(payloads)
      else Collected(required, txs + [tx], payloads, outputs)
  {
    forall id | id in payloads
      ensures First(txs + [tx], id) ==
        if First(txs, id).Some? then First(txs, id) else if tx.id == Some(id) then Some(tx) else None
    {
      FirstOfConcat(txs, [tx], id);
      assert First([tx][1..], id) == None;
    }
    if tx.id.Some? && tx.id.value in payloads && payloads[tx.id.value].None? {
      var payloads' := payloads[tx.id.value := Some(tx.payload)];
      assert payloads'.Keys == payloads.Keys + {tx.id.value};
      assert outputs[tx.id.value := Some(tx.outputs)].Keys == outputs.Keys + {tx.id.value};
      assert Missing(payloads') == Missing(payloads) - {tx.id.value};
    }
  }

  /** The collection loops, with their countdown and early exit. */
  method Collect(required: seq<Hash>, blocks: seq<Option<seq<MergedTx>>>)
    returns (payloads: PayloadMap, outputs: OutputMap, missing: nat)
    ensures Collected(required, Seen(blocks), payloads, outputs)
    ensures CollectedByIndex(required, blocks, payloads, outputs)
    ensures missing == |Missing(payloads)|
  {
    payloads := map id | id in required :: None;
    outputs := map id | id in required :: None;
    missing := |payloads|;
    assert Missing(payloads) == payloads.Keys;
    ghost var looked: seq<MergedTx> := [];
    var i := 0;
    while i < |blocks| && missing != 0
      invariant 0 <= i <= |blocks|
      invariant looked == Seen(blocks[..i])
      invariant Collected(required, looked, payloads, outputs)
      invariant missing == |Missing(payloads)|
    {
      assert blocks[..i + 1][..i] == blocks[..i];
      ghost var before := looked;
      if blocks[i].Some? {
        payloads, outputs, missing := CollectBlock(required, looked, AfterFirst(blocks[i].value), payloads, outputs,
                                                   missing);
        looked := before + AfterFirst(blocks[i].value);
      }
      i := i + 1;
    }
    SeenConcat(blocks[..i], blocks[i..]);
    assert blocks[..i] + blocks[i..] == blocks;
    if i < |blocks| {
      NothingMissing(required, looked, Seen(blocks[i..]), payloads, outputs);
    } else {
      assert Seen(blocks[i..]) == [] && looked + [] == looked;
    }
    CollectedPositions(required, blocks, payloads, outputs);
  }

  method CollectBlock(required: seq<Hash>, ghost looked: seq<MergedTx>, txs: seq<MergedTx>,
                      payloads0: PayloadMap, outputs0: OutputMap, missing0: nat)
    returns (payloads: PayloadMap, outputs: OutputMap, missing: nat)
    requires Collected(required, looked, payloads0, outputs0) && missing0 == |Missing(payloads0)|
    ensures Collected(required, looked + txs, payloads, outputs)
    ensures missing == |Missing(payloads)|
  {
    payloads, outputs, missing := payloads0, outputs0, missing0;
    var j := 0;
    assert looked + txs[..0] == looked;
    while j < |txs|
      invariant 0 <= j <= |txs|
      invariant Collected(required, looked + txs[..j], payloads, outputs)
      invariant missing == |Missing(payloads)|
    {
      var tx := txs[j];
      CollectOne(required, looked + txs[..j], tx, payloads, outputs);
      assert looked + txs[..j] + [tx] == looked + txs[..j + 1];
      j := j + 1;
      if tx.id.Some? && tx.id.value in payloads && payloads[tx.id.value].None? {
        payloads := payloads[tx.id.value := Some(tx.payload)];
        outputs := outputs[tx.id.value := Some(tx.outputs)];
        missing := missing - 1;
        if missing == 0 {
          break;
        }
      }
    }
    if j < |txs| {
      NothingMissing(required, looked + txs[..j], txs[j..], payloads, outputs);
    }
    assert looked + txs[..j] + txs[j..] == looked + txs;
    assert j == |txs| ==> looked + txs[..j] == looked + txs;
  }

  lemma {:induction false} SeenConcat(a: seq<Option<seq<MergedTx>>>, b: seq<Option<seq<MergedTx>>>)
    ensures Seen(a + b) == Seen(a) + Seen(b)
    decreases |b|
  {
    if b == [] {
      assert a + b == a;
    } else {
      assert (a + b)[..|a + b| - 1] == a + b[..|b| - 1];
      SeenConcat(a, b[..|b| - 1]);
    }
  }

  /** Dispatch. */

  /** Whether an engine takes a transaction, given what was collected of it: the id matches the
      engine's pattern and the header carries its prefix. */
  predicate Takes(payloads: PayloadMap, id: Hash, p: Prefix, pattern: Pattern) {
    id in payloads && payloads[id].Some? && Matches(id, pattern) && CheckHeader(payloads[id].value, p)
  }

  function Deliver(id: Hash, payloads: PayloadMap, outputs: OutputMap): Delivered
    requires id in payloads && payloads[id].Some? && |payloads[id].value| >= HEADER_LENGTH
  {
    Delivered(id, StripHeader(payloads[id].value), if id in outputs then outputs[id] else None)
  }

  /** What an engine is to receive: its transactions, each once, in acceptance order, stripped. */
  function Share(ids: seq<Hash>, payloads: PayloadMap, outputs: OutputMap, p: Prefix, pattern: Pattern)
    : seq<Delivered>
  {
    if ids == [] then []
    else
      var id, before := ids[|ids| - 1], ids[..|ids| - 1];
      var rest := Share(before, payloads, outputs, p, pattern);
      if Takes(payloads, id, p, pattern) && id !in before then rest + [Deliver(id, payloads, outputs)] else rest
  }

  /** The transactions an engine takes. */
  ghost function Taken(ids: seq<Hash>, payloads: PayloadMap, p: Prefix, pattern: Pattern): set<Hash> {
    if ids == [] then {}
    else
      var id := ids[|ids| - 1];
      Taken(ids[..|ids| - 1], payloads, p, pattern) + if Takes(payloads, id, p, pattern) then {id} else {}
  }

  lemma {:induction false} InTaken(ids: seq<Hash>, payloads: PayloadMap, p: Prefix, pattern: Pattern, id: Hash)
    ensures id in Taken(ids, payloads, p, pattern) <==> id in ids && Takes(payloads, id, p, pattern)
    decreases |ids|
  {
    if ids != [] {
      InTaken(ids[..|ids| - 1], payloads, p, pattern, id);
      assert ids == ids[..|ids| - 1] + [ids[|ids| - 1]];
    }
  }

  /** No transaction is for two engines. */
  lemma TakenByOne(ids: seq<Hash>, payloads: PayloadMap, p: Prefix, patternP: Pattern, q: Prefix, patternQ: Pattern)
    requires p != q
    ensures Taken(ids, payloads, p, patternP) !! Taken(ids, payloads, q, patternQ)
  {
    forall id | id in Taken(ids, payloads, p, patternP) && id in Taken(ids, payloads, q, patternQ) ensures false {
      InTaken(ids, payloads, p, patternP, id);
      InTaken(ids, payloads, q, patternQ, id);
      OnePrefix(payloads[id].value, p, q);
    }
  }

  /** The collected entries an engine's pass consumes, and how many have been consumed so far. */
  datatype Pool = Pool(payloads: PayloadMap, outputs: OutputMap, consumed: nat)

  function Without(pool: Pool, id: Hash): Pool {
    Pool(pool.payloads - {id}, pool.outputs - {id}, pool.consumed + 1)
  }

  /** An engine's pass: taking a transaction removes its entries. */
  function Pass(ids: seq<Hash>, pool: Pool, p: Prefix, pattern: Pattern): (seq<Delivered>, Pool)
    decreases |ids|
  {
    if ids == [] then ([], pool)
    else
      var (share, left) := Pass(ids[..|ids| - 1], pool, p, pattern);
      var id := ids[|ids| - 1];
      if Takes(left.payloads, id, p, pattern)
      then (share + [Deliver(id, left.payloads, left.outputs)], Without(left, id))
      else (share, left)
  }

  /** `left` is the map without the entries of `gone`. */
  ghost predicate Remains<V>(m: map<Hash, V>, gone: set<Hash>, left: map<Hash, V>) {
    left.Keys == m.Keys - gone && forall id :: id in left ==> left[id] == m[id]
  }

  lemma RemoveOneMore<V>(m: map<Hash, V>, gone: set<Hash>, left: map<Hash, V>, id: Hash)
    requires Remains(m, gone, left)
    ensures Remains(m, gone + {id}, left - {id})
    ensures id in left ==> |left - {id}| == |left| - 1
  {
    assert (left - {id}).Keys == left.Keys - {id};
  }

  /** The pool after some entries are gone. */
  ghost predicate Drained(full: Pool, gone: set<Hash>, left: Pool) {
    && Remains(full.payloads, gone, left.payloads)
    && Remains(full.outputs, gone, left.outputs)
    && left.consumed + |left.payloads| == |full.payloads|
  }

  lemma DrainOneMore(full: Pool, gone: set<Hash>, left: Pool, id: Hash)
    requires Drained(full, gone, left) && id in left.payloads
    ensures Drained(full, gone + {id}, Without(left, id))
  {
    RemoveOneMore(full.payloads, gone, left.payloads, id);
    RemoveOneMore(full.outputs, gone, left.outputs, id);
  }

  /** An entry is still there for its engine exactly when the engine has not met the id before. */
  lemma TakesIff(before: seq<Hash>, id: Hash, full: Pool, p: Prefix, pattern: Pattern, gone: set<Hash>, left: Pool)
    requires Takes(full.payloads, id, p, pattern) ==> id !in gone
    requires Drained(full, gone + Taken(before, full.payloads, p, pattern), left)
    ensures Takes(left.payloads, id, p, pattern) <==> Takes(full.payloads, id, p, pattern) && id !in before
    ensures Takes(left.payloads, id, p, pattern) ==>
      Deliver(id, left.payloads, left.outputs) == Deliver(id, full.payloads, full.outputs)
  {
    InTaken(before, full.payloads, p, pattern, id);
  }

  lemma TakenStep(ids: seq<Hash>, payloads: PayloadMap, p: Prefix, pattern: Pattern)
    requires ids != []
    ensures
      var id, before := ids[|ids| - 1], ids[..|ids| - 1];
      && (Takes(payloads, id, p, pattern) ==> id in Taken(ids, payloads, p, pattern))
      && (if Takes(payloads, id, p, pattern) && id !in before
          then Taken(ids, payloads, p, pattern) == Taken(before, payloads, p, pattern) + {id}
          else Taken(ids, payloads, p, pattern) == Taken(before, payloads, p, pattern))
  {
    InTaken(ids[..|ids| - 1], payloads, p, pattern, ids[|ids| - 1]);
  }

  lemma UnionAssoc<T>(a: set<T>, b: set<T>, c: set<T>)
    ensures a + (b + c) == a + b + c
  {
  }

  lemma PassStep(ids: seq<Hash>, full: Pool, p: Prefix, pattern: Pattern, gone: set<Hash>, left: Pool)
    requires ids != [] && gone !! Taken(ids, full.payloads, p, pattern)
    requires Drained(full, gone + Taken(ids[..|ids| - 1], full.payloads, p, pattern), left)
    ensures
      var id := ids[|ids| - 1];
      var next := if Takes(left.payloads, id, p, pattern) then Without(left, id) else left;
      Drained(full, gone + Taken(ids, full.payloads, p, pattern), next)
  {
    var id, before := ids[|ids| - 1], ids[..|ids| - 1];
    var taken := Taken(before, full.payloads, p, pattern);
    TakenStep(ids, full.payloads, p, pattern);
    TakesIff(before, id, full, p, pattern, gone, left);
    if Takes(left.payloads, id, p, pattern) {
      DrainOneMore(full, gone + taken, left, id);
      UnionAssoc(gone, taken, {id});
    }
  }

  /** A pass that starts after others have consumed only entries that are not this engine's
      delivers the engine's whole share, and consumes what it takes. */
  lemma {:induction false} PassDelivers(ids: seq<Hash>, full: Pool, p: Prefix, pattern: Pattern, gone: set<Hash>,
                                        pool: Pool)
    requires Drained(full, gone, pool) && gone !! Taken(ids, full.payloads, p, pattern)
    ensures Pass(ids, pool, p, pattern).0 == Share(ids, full.payloads, full.outputs, p, pattern)
    ensures Drained(full, gone + Taken(ids, full.payloads, p, pattern), Pass(ids, pool, p, pattern).1)
    decreases |ids|
  {
    if ids == [] {
      assert gone + Taken(ids, full.payloads, p, pattern) == gone;
    } else {
      var before := ids[..|ids| - 1];
      PassDelivers(before, full, p, pattern, gone, pool);
      PassStep(ids, full, p, pattern, gone, Pass(before, pool, p, pattern).1);
      TakesIff(before, ids[|ids| - 1], full, p, pattern, gone, Pass(before, pool, p, pattern).1);
    }
  }

  /** One engine's pass over the required transactions. */
  method Serve(required: seq<Hash>, pool: Pool, p: Prefix, pattern: Pattern)
    returns (share: seq<Delivered>, left: Pool)
    ensures (share, left) == Pass(required, pool, p, pattern)
  {
    share, left := [], pool;
    for i := 0 to |required|
      invariant (share, left) == Pass(required[..i], pool, p, pattern)
    {
      var id := required[i];
      assert required[..i + 1][..i] == required[..i];
      var ok := CheckPattern(id, pattern);
      if ok && id in left.payloads && left.payloads[id].Some? && CheckHeader(left.payloads[id].value, p) {
        share := share + [Deliver(id, left.payloads, left.outputs)];
        left := Pool(left.payloads - {id}, left.outputs - {id}, left.consumed + 1);
      }
    }
    assert required[..|required|] == required;
  }

  /** What an engine received, nothing being sent when there is nothing for it. */
  function ReceivedBy(sent: map<Prefix, seq<Delivered>>, p: Prefix): seq<Delivered> {
    if p in sent then sent[p] else []
  }

  /** Every engine but those still to be visited has received its share, and no message is empty. */
  ghost predicate Served(required: seq<Hash>, full: Pool, engines: EngineMap, todo: set<Prefix>,
                         sent: map<Prefix, seq<Delivered>>) {
    && (forall p :: p in sent ==> p in engines && p !in todo && sent[p] != [])
    && (forall p :: p in engines && p !in todo ==>
          ReceivedBy(sent, p) == Share(required, full.payloads, full.outputs, p, engines[p]))
  }

  /** Nothing an unvisited engine takes is gone. */
  ghost predicate Untouched(required: seq<Hash>, full: Pool, engines: EngineMap, todo: set<Prefix>, gone: set<Hash>)
    requires todo <= engines.Keys
  {
    forall p :: p in todo ==> gone !! Taken(required, full.payloads, p, engines[p])
  }

  lemma UntouchedStep(required: seq<Hash>, full: Pool, engines: EngineMap, todo: set<Prefix>, gone: set<Hash>,
                      p: Prefix)
    requires todo <= engines.Keys && p in todo && Untouched(required, full, engines, todo, gone)
    ensures Untouched(required, full, engines, todo - {p}, gone + Taken(required, full.payloads, p, engines[p]))
  {
    forall q | q in todo - {p}
      ensures (gone + Taken(required, full.payloads, p, engines[p])) !! Taken(required, full.payloads, q, engines[q])
    {
      TakenByOne(required, full.payloads, p, engines[p], q, engines[q]);
      assert gone !! Taken(required, full.payloads, q, engines[q]);
    }
  }

  lemma {:induction false} ShareOnlyTaken(ids: seq<Hash>, payloads: PayloadMap, outputs: OutputMap, p: Prefix,
                                          pattern: Pattern)
    requires Taken(ids, payloads, p, pattern) == {}
    ensures Share(ids, payloads, outputs, p, pattern) == []
    decreases |ids|
  {
    if ids != [] {
      ShareOnlyTaken(ids[..|ids| - 1], payloads, outputs, p, pattern);
    }
  }

  /** When everything has been consumed, the engines not yet visited have empty shares. */
  lemma EarlyExit(required: seq<Hash>, full: Pool, engines: EngineMap, todo: set<Prefix>, gone: set<Hash>, p: Prefix)
    requires todo <= engines.Keys && Untouched(required, full, engines, todo, gone) && p in todo
    requires full.payloads.Keys <= gone
    ensures Share(required, full.payloads, full.outputs, p, engines[p]) == []
  {
    forall id ensures id !in Taken(required, full.payloads, p, engines[p]) {
      InTaken(required, full.payloads, p, engines[p], id);
    }
    ShareOnlyTaken(required, full.payloads, full.outputs, p, engines[p]);
  }

  lemma IdSetSize(ids: seq<Hash>)
    ensures |IdSet(ids)| <= |ids|
  {
    if ids != [] {
      IdSetSize(ids[1..]);
      assert ids == [ids[0]] + ids[1..];
      assert IdSet(ids) == {ids[0]} + IdSet(ids[1..]);
    }
  }

  lemma NoneRemain<V>(m: map<Hash, V>, gone: set<Hash>, left: map<Hash, V>)
    requires Remains(m, gone, left) && |left| == 0
    ensures m.Keys <= gone
  {
  }

  /** As many consumed as were required means that every entry is gone. */
  lemma AllGone(required: seq<Hash>, full: Pool, gone: set<Hash>, left: Pool)
    requires full.payloads.Keys == IdSet(required) && Drained(full, gone, left) && left.consumed == |required|
    ensures full.payloads.Keys <= gone
  {
    IdSetSize(required);
    assert |full.payloads| == |full.payloads.Keys|;
    NoneRemain(full.payloads, gone, left.payloads);
  }

  lemma ServedStep(required: seq<Hash>, full: Pool, engines: EngineMap, todo: set<Prefix>,
                   sent: map<Prefix, seq<Delivered>>, p: Prefix)
    requires todo <= engines.Keys && p in todo && Served(required, full, engines, todo, sent)
    ensures
      var share := Share(required, full.payloads, full.outputs, p, engines[p]);
      Served(required, full, engines, todo - {p}, if share != [] then sent[p := share] else sent)
  {
  }

  /** The dispatch loop over the engines, in whatever order the map yields them. Despite the
      consumption of entries and the early exit, each engine receives exactly its share. */
  method Dispatch(required: seq<Hash>, payloads: PayloadMap, outputs: OutputMap, engines: EngineMap)
    returns (sent: map<Prefix, seq<Delivered>>)
    requires payloads.Keys == IdSet(required)
    ensures Served(required, Pool(payloads, outputs, 0), engines, {}, sent)
  {
    var full := Pool(payloads, outputs, 0);
    var pool, todo := full, engines.Keys;
    sent := map[];
    ghost var gone: set<Hash> := {};
    while todo != {}
      invariant todo <= engines.Keys
      invariant Drained(full, gone, pool) && Untouched(required, full, engines, todo, gone)
      invariant Served(required, full, engines, todo, sent)
    {
      var p :| p in todo;
      PassDelivers(required, full, p, engines[p], gone, pool);
      UntouchedStep(required, full, engines, todo, gone, p);
      ServedStep(required, full, engines, todo, sent, p);
      var share;
      share, pool := Serve(required, pool, p, engines[p]);
      gone := gone + Taken(required, full.payloads, p, engines[p]);
      todo := todo - {p};
      if share != [] {
        sent := sent[p := share];
      }
      if pool.consumed == |required| {
        ServedEarly(required, full, engines, todo, gone, pool, sent);
        break;
      }
    }
  }

  lemma ServedEarly(required: seq<Hash>, full: Pool, engines: EngineMap, todo: set<Prefix>, gone: set<Hash>, pool: Pool,
                    sent: map<Prefix, seq<Delivered>>)
    requires todo <= engines.Keys && full.payloads.Keys == IdSet(required)
    requires Drained(full, gone, pool) && Untouched(required, full, engines, todo, gone)
    requires Served(required, full, engines, todo, sent) && pool.consumed == |required|
    ensures Served(required, full, engines, {}, sent)
  {
    AllGone(required, full, gone, pool);
    AllServed(required, full, engines, todo, gone, sent);
  }

  lemma AllServed(required: seq<Hash>, full: Pool, engines: EngineMap, todo: set<Prefix>, gone: set<Hash>,
                  sent: map<Prefix, seq<Delivered>>)
    requires todo <= engines.Keys && Untouched(required, full, engines, todo, gone)
    requires full.payloads.Keys <= gone && Served(required, full, engines, todo, sent)
    ensures Served(required, full, engines, {}, sent)
  {
    forall p | p in engines
      ensures ReceivedBy(sent, p) == Share(required, full.payloads, full.outputs, p, engines[p])
    {
      if p in todo {
        EarlyExit(required, full, engines, todo, gone, p);
      }
    }
  }

  /** Routing one accepting block. */

  /** Whether an engine is due a transaction, given the merged transactions. */
  predicate DueOne(txs: seq<MergedTx>, id: Hash, p: Prefix, pattern: Pattern) {
    First(txs, id).Some? && Matches(id, pattern) && CheckHeader(First(txs, id).value.payload, p)
  }

  /** What one engine is due, which says nothing of other engines, of consumption or of filtering. */
  function Due(ids: seq<Hash>, txs: seq<MergedTx>, p: Prefix, pattern: Pattern): seq<Delivered> {
    if ids == [] then []
    else
      var id, before := ids[|ids| - 1], ids[..|ids| - 1];
      var rest := Due(before, txs, p, pattern);
      if DueOne(txs, id, p, pattern) && id !in before
      then rest + [Delivered(id, StripHeader(First(txs, id).value.payload), Some(First(txs, id).value.outputs))]
      else rest
  }

  lemma {:induction false} InRequired(engines: EngineMap, ids: seq<Hash>, id: Hash)
    ensures id in Required(engines, ids) <==> id in ids && Wanted(engines, id)
    decreases |ids|
  {
    if ids != [] {
      InRequired(engines, ids[..|ids| - 1], id);
      assert ids == ids[..|ids| - 1] + [ids[|ids| - 1]];
    }
  }

  lemma TakesIsDue(required: seq<Hash>, txs: seq<MergedTx>, payloads: PayloadMap, outputs: OutputMap, id: Hash,
                   p: Prefix, pattern: Pattern)
    requires Collected(required, txs, payloads, outputs)
    ensures Takes(payloads, id, p, pattern) <==> id in required && DueOne(txs, id, p, pattern)
    ensures Takes(payloads, id, p, pattern) ==>
      Deliver(id, payloads, outputs)
      == Delivered(id, StripHeader(First(txs, id).value.payload), Some(First(txs, id).value.outputs))
  {
    assert id in payloads.Keys <==> id in IdSet(required);
  }

  /** Filtering to what any engine wants loses nothing of what one engine is due. */
  lemma {:induction false} ShareIsDue(ids: seq<Hash>, required: seq<Hash>, txs: seq<MergedTx>, payloads: PayloadMap,
                                      outputs: OutputMap, engines: EngineMap, p: Prefix)
    requires Collected(required, txs, payloads, outputs) && p in engines
    requires forall id :: id in Required(engines, ids) ==> id in required
    ensures Share(Required(engines, ids), payloads, outputs, p, engines[p]) == Due(ids, txs, p, engines[p])
    decreases |ids|
  {
    if ids != [] {
      var id, before := ids[|ids| - 1], ids[..|ids| - 1];
      ShareIsDue(before, required, txs, payloads, outputs, engines, p);
      TakesIsDue(required, txs, payloads, outputs, id, p, engines[p]);
      InRequired(engines, before, id);
      if Wanted(engines, id) {
        assert (Required(engines, before) + [id])[..|Required(engines, before)|] == Required(engines, before);
        assert id in Required(engines, ids);
      }
    }
  }

  /** All that any engine wants of the accepted transactions is among the merged ones. */
  ghost predicate AllFound(ids: seq<Hash>, txs: seq<MergedTx>, engines: EngineMap) {
    forall id :: id in ids && Wanted(engines, id) ==> First(txs, id).Some?
  }

  lemma MissingIffNotFound(ids: seq<Hash>, txs: seq<MergedTx>, engines: EngineMap, payloads: PayloadMap,
                           outputs: OutputMap)
    requires Collected(Required(engines, ids), txs, payloads, outputs)
    ensures Missing(payloads) == {} <==> AllFound(ids, txs, engines)
  {
    forall id ensures id in payloads <==> id in ids && Wanted(engines, id) {
      InRequired(engines, ids, id);
      assert id in payloads.Keys <==> id in IdSet(Required(engines, ids));
    }
    if Missing(payloads) == {} {
      forall id | id in ids && Wanted(engines, id) ensures First(txs, id).Some? {
        assert id !in Missing(payloads);
      }
    }
  }

  /** What is sent, told from positions alone. */

  type Fetched = seq<Option<seq<MergedTx>>>

  /** The transaction at a position of a readable block, its first one excepted, has the id. */
  predicate Merged(blocks: Fetched, k: nat, j: nat, id: Hash) {
    k < |blocks| && blocks[k].Some? && 1 <= j < |blocks[k].value| && blocks[k].value[j].id == Some(id)
  }

  /** No earlier one has. */
  ghost predicate Earliest(blocks: Fetched, k: nat, j: nat, id: Hash) {
    Merged(blocks, k, j, id) && forall k': nat, j': nat :: Merged(blocks, k', j', id) ==> k < k' || (k == k' && j <= j')
  }

  predicate HasBits(id: Hash, pattern: Pattern) {
    forall i :: 0 <= i < |pattern| ==> BitAt(id, pattern[i].0) == pattern[i].1
  }

  /** Every accepted id, the first excepted, that matches some engine's pattern is among the merged. */
  ghost predicate EverythingMerged(ids: seq<Hash>, blocks: Fetched, engines: EngineMap) {
    forall i :: 1 <= i < |ids| && (exists p :: p in engines && HasBits(ids[i], engines[p])) ==>
      exists k: nat, j: nat :: Merged(blocks, k, j, ids[i])
  }

  /** The id was accepted, not first, has the pattern's bits, and the earliest merged transaction that
      has it names the prefix. */
  ghost predicate Addressed(ids: seq<Hash>, blocks: Fetched, p: Prefix, pattern: Pattern, id: Hash) {
    && (exists i :: 1 <= i < |ids| && ids[i] == id) && HasBits(id, pattern)
    && exists k: nat, j: nat :: Earliest(blocks, k, j, id) && Names(blocks[k].value[j].payload, p)
  }

  /** The item carries that transaction's payload from the ninth byte on, and its outputs. */
  ghost predicate CarriesEarliest(blocks: Fetched, item: Delivered) {
    exists k: nat, j: nat ::
      && Earliest(blocks, k, j, item.id) && |blocks[k].value[j].payload| >= 8
      && item.payload == blocks[k].value[j].payload[8..] && item.outputs == Some(blocks[k].value[j].outputs)
  }

  /** `a` was accepted before `b` ever was. */
  ghost predicate AcceptedBefore(ids: seq<Hash>, a: Hash, b: Hash) {
    exists i :: 1 <= i < |ids| && ids[i] == a && forall i' :: 1 <= i' < |ids| && ids[i'] == b ==> i < i'
  }

  /** What an engine is sent: what is addressed to it, each with its own content, in acceptance order. */
  ghost predicate SentByIndex(ids: seq<Hash>, blocks: Fetched, p: Prefix, pattern: Pattern, share: seq<Delivered>) {
    && (forall id :: (exists n :: 0 <= n < |share| && share[n].id == id) <==> Addressed(ids, blocks, p, pattern, id))
    && (forall n :: 0 <= n < |share| ==> CarriesEarliest(blocks, share[n]))
    && (forall n, n' :: 0 <= n < n' < |share| ==> AcceptedBefore(ids, share[n].id, share[n'].id))
  }

  lemma FirstIndex(txs: seq<MergedTx>, id: Hash) returns (j: nat)
    ensures j <= |txs| && (First(txs, id).Some? <==> j < |txs|)
    ensures j < |txs| ==> txs[j].id == Some(id) && First(txs, id) == Some(txs[j])
    ensures forall i :: 0 <= i < j ==> txs[i].id != Some(id)
  {
    if txs == [] {
      return 0;
    }
    if txs[0].id == Some(id) {
      return 0;
    }
    var rest := FirstIndex(txs[1..], id);
    assert forall i :: 1 <= i < rest + 1 ==> txs[i] == txs[1..][i - 1];
    return rest + 1;
  }

  /** The first of the transactions looked at is the earliest merged one. */
  lemma SeenFirst(blocks: Fetched, id: Hash) returns (k: nat, j: nat)
    ensures First(Seen(blocks), id).Some? <==> Merged(blocks, k, j, id)
    ensures First(Seen(blocks), id).Some? ==>
      Earliest(blocks, k, j, id) && First(Seen(blocks), id) == Some(blocks[k].value[j])
    ensures First(Seen(blocks), id).None? ==> forall k': nat, j': nat :: !Merged(blocks, k', j', id)
    decreases |blocks|
  {
    k, j := 0, 0;
    if blocks != [] {
      var last := |blocks| - 1;
      var before, tail := blocks[..last], if blocks[last].Some? then AfterFirst(blocks[last].value) else [];
      FirstOfConcat(Seen(before), tail, id);
      k, j := SeenFirst(before, id);
      assert forall k': nat, j': nat :: k' < last ==> (Merged(blocks, k', j', id) <==> Merged(before, k', j', id));
      if First(Seen(before), id).None? {
        var at := FirstIndex(tail, id);
        k, j := last, at + 1;
        TailIndex(blocks, id, at);
      }
    }
  }

  lemma TailIndex(blocks: Fetched, id: Hash, at: nat)
    requires blocks != [] && forall k': nat, j': nat :: k' < |blocks| - 1 ==> !Merged(blocks, k', j', id)
    requires
      var tail := if blocks[|blocks| - 1].Some? then AfterFirst(blocks[|blocks| - 1].value) else [];
      && at <= |tail| && (at < |tail| ==> tail[at].id == Some(id))
      && forall i :: 0 <= i < at ==> tail[i].id != Some(id)
    ensures
      var tail := if blocks[|blocks| - 1].Some? then AfterFirst(blocks[|blocks| - 1].value) else [];
      && (at < |tail| ==> Earliest(blocks, |blocks| - 1, at + 1, id) && blocks[|blocks| - 1].value[at + 1] == tail[at])
      && (at == |tail| ==> forall k': nat, j': nat :: !Merged(blocks, k', j', id))
  {
    var last := |blocks| - 1;
    var tail := if blocks[last].Some? then AfterFirst(blocks[last].value) else [];
    forall k': nat, j': nat | Merged(blocks, k', j', id) ensures k' == last && at <= j' - 1 < |tail| {
      assert tail[j' - 1] == blocks[last].value[j'];
    }
  }

  /** For every required id the payload and outputs of the earliest merged transaction, if there is one. */
  ghost predicate CollectedByIndex(required: seq<Hash>, blocks: Fetched, payloads: PayloadMap, outputs: OutputMap) {
    && (forall id :: id in payloads <==> id in required) && (forall id :: id in outputs <==> id in required)
    && (forall id, k: nat, j: nat :: id in required && Earliest(blocks, k, j, id) ==>
          payloads[id] == Some(blocks[k].value[j].payload) && outputs[id] == Some(blocks[k].value[j].outputs))
    && (forall id :: id in required && (forall k: nat, j: nat :: !Merged(blocks, k, j, id)) ==>
          payloads[id] == None && outputs[id] == None)
  }

  lemma CollectedPositions(required: seq<Hash>, blocks: Fetched, payloads: PayloadMap, outputs: OutputMap)
    requires Collected(required, Seen(blocks), payloads, outputs)
    ensures CollectedByIndex(required, blocks, payloads, outputs)
  {
    assert forall id :: id in payloads.Keys <==> id in IdSet(required);
    assert forall id :: id in outputs.Keys <==> id in IdSet(required);
    forall id, k: nat, j: nat | id in required && Earliest(blocks, k, j, id)
      ensures First(Seen(blocks), id) == Some(blocks[k].value[j])
    {
      var k', j' := SeenFirst(blocks, id);
      assert First(Seen(blocks), id).Some?;
      EarliestOnce(blocks, k, j, k', j', id);
    }
    forall id | id in required && (forall k: nat, j: nat :: !Merged(blocks, k, j, id))
      ensures First(Seen(blocks), id).None?
    {
      var k, j := SeenFirst(blocks, id);
    }
  }

  lemma EarliestOnce(blocks: Fetched, k: nat, j: nat, k': nat, j': nat, id: Hash)
    requires Earliest(blocks, k, j, id) && Earliest(blocks, k', j', id)
    ensures k == k' && j == j'
  {
  }

  lemma AddressedIff(ids: seq<Hash>, blocks: Fetched, p: Prefix, pattern: Pattern, id: Hash)
    ensures Addressed(ids, blocks, p, pattern, id) <==> id in AfterFirst(ids) && DueOne(Seen(blocks), id, p, pattern)
  {
    var k, j := SeenFirst(blocks, id);
    MatchesEveryBit(id, pattern);
    assert (exists i :: 1 <= i < |ids| && ids[i] == id) <==> id in AfterFirst(ids) by {
      assert forall i :: 1 <= i < |ids| ==> ids[i] == AfterFirst(ids)[i - 1];
    }
    if First(Seen(blocks), id).Some? {
      HeaderNames(blocks[k].value[j].payload, p);
      forall k': nat, j': nat | Earliest(blocks, k', j', id) ensures k' == k && j' == j {
        EarliestOnce(blocks, k, j, k', j', id);
      }
    }
  }

  /** Each item of a share is due, carries what was merged, and comes after those accepted earlier. */
  ghost predicate Ordered(ids: seq<Hash>, share: seq<Delivered>) {
    forall n, n' :: 0 <= n < n' < |share| ==> Earlier(ids, share[n].id, share[n'].id)
  }

  ghost predicate Earlier(ids: seq<Hash>, a: Hash, b: Hash) {
    exists i :: 0 <= i < |ids| && ids[i] == a && forall i' :: 0 <= i' < |ids| && ids[i'] == b ==> i < i'
  }

  lemma {:induction false} DueOrdered(ids: seq<Hash>, txs: seq<MergedTx>, p: Prefix, pattern: Pattern)
    ensures Ordered(ids, Due(ids, txs, p, pattern))
    decreases |ids|
  {
    if ids != [] {
      var id, before := ids[|ids| - 1], ids[..|ids| - 1];
      var rest, share := Due(before, txs, p, pattern), Due(ids, txs, p, pattern);
      DueOrdered(before, txs, p, pattern);
      forall n, n' | 0 <= n < n' < |share| ensures Earlier(ids, share[n].id, share[n'].id) {
        DueOrderedPair(ids, txs, p, pattern, n, n');
      }
    }
  }

  lemma DueOrderedPair(ids: seq<Hash>, txs: seq<MergedTx>, p: Prefix, pattern: Pattern, n: nat, n': nat)
    requires ids != [] && Ordered(ids[..|ids| - 1], Due(ids[..|ids| - 1], txs, p, pattern))
    requires n < n' < |Due(ids, txs, p, pattern)|
    ensures
      var share := Due(ids, txs, p, pattern);
      Earlier(ids, share[n].id, share[n'].id)
  {
    var last, before := |ids| - 1, ids[..|ids| - 1];
    var rest, share := Due(before, txs, p, pattern), Due(ids, txs, p, pattern);
    DueItem(before, txs, p, pattern, n);
    var i: nat;
    if n' < |rest| {
      DueItem(before, txs, p, pattern, n');
      assert Earlier(before, rest[n].id, rest[n'].id);
      i :| 0 <= i < |before| && before[i] == rest[n].id
        && forall i' :: 0 <= i' < |before| && before[i'] == rest[n'].id ==> i < i';
    } else {
      i :| 0 <= i < |before| && before[i] == rest[n].id;
    }
    assert ids[i] == share[n].id;
    forall i' | 0 <= i' < |ids| && ids[i'] == share[n'].id ensures i < i' {
      assert i' < last ==> before[i'] == share[n'].id;
    }
  }

  /** Each item of what is due carries the first transaction of its id. */
  lemma {:induction false} DueItem(ids: seq<Hash>, txs: seq<MergedTx>, p: Prefix, pattern: Pattern, n: nat)
    requires n < |Due(ids, txs, p, pattern)|
    ensures
      var item := Due(ids, txs, p, pattern)[n];
      && item.id in ids && DueOne(txs, item.id, p, pattern)
      && item == Delivered(item.id, StripHeader(First(txs, item.id).value.payload),
                           Some(First(txs, item.id).value.outputs))
    decreases |ids|
  {
    var before := ids[..|ids| - 1];
    assert ids == before + [ids[|ids| - 1]];
    if n < |Due(before, txs, p, pattern)| {
      DueItem(before, txs, p, pattern, n);
    }
  }

  lemma {:induction false} IdsIndex(items: seq<Delivered>, id: Hash)
    ensures id in IdsOf(items) <==> exists n :: 0 <= n < |items| && items[n].id == id
  {
    if items != [] {
      var last := |items| - 1;
      IdsIndex(items[..last], id);
      assert forall n :: 0 <= n < last ==> items[..last][n] == items[n];
    }
  }

  lemma AllFoundIff(ids: seq<Hash>, blocks: Fetched, engines: EngineMap)
    ensures AllFound(AfterFirst(ids), Seen(blocks), engines) <==> EverythingMerged(ids, blocks, engines)
  {
    forall i | 1 <= i < |ids|
      ensures Wanted(engines, ids[i]) <==> exists p :: p in engines && HasBits(ids[i], engines[p])
      ensures First(Seen(blocks), ids[i]).Some? <==> exists k: nat, j: nat :: Merged(blocks, k, j, ids[i])
    {
      forall p | p in engines ensures Matches(ids[i], engines[p]) <==> HasBits(ids[i], engines[p]) {
        MatchesEveryBit(ids[i], engines[p]);
      }
      var k, j := SeenFirst(blocks, ids[i]);
    }
    if EverythingMerged(ids, blocks, engines) {
      forall id | id in AfterFirst(ids) && Wanted(engines, id) ensures First(Seen(blocks), id).Some? {
        var i :| 0 <= i < |AfterFirst(ids)| && AfterFirst(ids)[i] == id;
        assert ids[i + 1] == id;
      }
    }
    if AllFound(AfterFirst(ids), Seen(blocks), engines) {
      forall i | 1 <= i < |ids| && Wanted(engines, ids[i]) ensures First(Seen(blocks), ids[i]).Some? {
        assert AfterFirst(ids)[i - 1] == ids[i];
      }
    }
  }

  /** What is due, told from positions. */
  lemma DueByIndex(ids: seq<Hash>, blocks: Fetched, p: Prefix, pattern: Pattern)
    ensures SentByIndex(ids, blocks, p, pattern, Due(AfterFirst(ids), Seen(blocks), p, pattern))
  {
    var share := Due(AfterFirst(ids), Seen(blocks), p, pattern);
    forall id
      ensures (exists n :: 0 <= n < |share| && share[n].id == id) <==> Addressed(ids, blocks, p, pattern, id)
    {
      IdsIndex(share, id);
      InDue(AfterFirst(ids), Seen(blocks), p, pattern, id);
      AddressedIff(ids, blocks, p, pattern, id);
    }
    forall n | 0 <= n < |share| ensures CarriesEarliest(blocks, share[n]) {
      DueItem(AfterFirst(ids), Seen(blocks), p, pattern, n);
      var k, j := SeenFirst(blocks, share[n].id);
    }
    DueOrdered(AfterFirst(ids), Seen(blocks), p, pattern);
    forall n, n' | 0 <= n < n' < |share| ensures AcceptedBefore(ids, share[n].id, share[n'].id) {
      ShiftOrder(ids, share[n].id, share[n'].id);
    }
  }

  lemma ShiftOrder(ids: seq<Hash>, a: Hash, b: Hash)
    requires Earlier(AfterFirst(ids), a, b)
    ensures AcceptedBefore(ids, a, b)
  {
    var i :| 0 <= i < |AfterFirst(ids)| && AfterFirst(ids)[i] == a
      && forall i' :: 0 <= i' < |AfterFirst(ids)| && AfterFirst(ids)[i'] == b ==> i < i';
    assert ids[i + 1] == a;
    forall i' | 1 <= i' < |ids| && ids[i'] == b ensures i + 1 < i' {
      assert AfterFirst(ids)[i' - 1] == b;
    }
  }

  lemma NothingDue(ids: seq<Hash>, txs: seq<MergedTx>, engines: EngineMap)
    requires Required(engines, AfterFirst(ids)) == []
    ensures forall p :: p in engines ==> Due(AfterFirst(ids), txs, p, engines[p]) == []
  {
    forall p | p in engines ensures Due(AfterFirst(ids), txs, p, engines[p]) == [] {
      ShareIsDue(AfterFirst(ids), [], txs, map[], map[], engines, p);
    }
  }

  /** The body of the accepted-block loop: `ids` are the accepted ids with the coinbase first,
      `fetched` the merged blocks, or None when the accepting block could not be read. Each engine
      is sent exactly what it is due, or, when anything wanted is missing, nobody is sent anything. */
  method RouteBlock(ids: seq<Hash>, fetched: Option<seq<Option<seq<MergedTx>>>>, engines: EngineMap)
    returns (sent: map<Prefix, seq<Delivered>>)
    ensures forall p :: p in sent ==> p in engines && sent[p] != []
    ensures
      if fetched.Some? && AllFound(AfterFirst(ids), Seen(fetched.value), engines)
      then forall p :: p in engines ==> ReceivedBy(sent, p) == Due(AfterFirst(ids), Seen(fetched.value), p, engines[p])
      else sent == map[]
    ensures
      if fetched.Some? && EverythingMerged(ids, fetched.value, engines)
      then forall p :: p in engines ==> SentByIndex(ids, fetched.value, p, engines[p], ReceivedBy(sent, p))
      else sent == map[]
  {
    if fetched.Some? {
      AllFoundIff(ids, fetched.value, engines);
      forall p | p in engines
        ensures SentByIndex(ids, fetched.value, p, engines[p],
                            Due(AfterFirst(ids), Seen(fetched.value), p, engines[p]))
      {
        DueByIndex(ids, fetched.value, p, engines[p]);
      }
    }
    var required := Required(engines, AfterFirst(ids));
    if |required| == 0 {
      NothingDue(ids, if fetched.Some? then Seen(fetched.value) else [], engines);
      return map[];
    }
    if fetched.None? {
      return map[];
    }
    ghost var txs := Seen(fetched.value);
    var payloads, outputs, missing := Collect(required, fetched.value);
    MissingIffNotFound(AfterFirst(ids), txs, engines, payloads, outputs);
    if missing != 0 {
      return map[];
    }
    assert Missing(payloads) == {};
    sent := Dispatch(required, payloads, outputs, engines);
    forall p | p in engines ensures ReceivedBy(sent, p) == Due(AfterFirst(ids), txs, p, engines[p]) {
      ShareIsDue(AfterFirst(ids), required, txs, payloads, outputs, engines, p);
    }
  }

  /** The ids of what is delivered, in order. */
  function IdsOf(items: seq<Delivered>): seq<Hash> {
    if items == [] then [] else IdsOf(items[..|items| - 1]) + [items[|items| - 1].id]
  }

  lemma {:induction false} InDue(ids: seq<Hash>, txs: seq<MergedTx>, p: Prefix, pattern: Pattern, id: Hash)
    ensures id in IdsOf(Due(ids, txs, p, pattern)) <==> id in ids && DueOne(txs, id, p, pattern)
    decreases |ids|
  {
    if ids != [] {
      var before := ids[..|ids| - 1];
      InDue(before, txs, p, pattern, id);
      var rest := Due(before, txs, p, pattern);
      assert ids == before + [ids[|ids| - 1]];
      assert forall d: Delivered :: (rest + [d])[..|rest|] == rest;
    }
  }

  /** However often an id was accepted, it is delivered once. */
  lemma {:induction false} DueOnce(ids: seq<Hash>, txs: seq<MergedTx>, p: Prefix, pattern: Pattern)
    ensures var due := IdsOf(Due(ids, txs, p, pattern)); forall i, j :: 0 <= i < j < |due| ==> due[i] != due[j]
    decreases |ids|
  {
    if ids != [] {
      var before := ids[..|ids| - 1];
      DueOnce(before, txs, p, pattern);
      InDue(before, txs, p, pattern, ids[|ids| - 1]);
      var rest := Due(before, txs, p, pattern);
      assert forall d: Delivered :: (rest + [d])[..|rest|] == rest;
    }
  }

  lemma {:induction false} InDueContent(ids: seq<Hash>, txs: seq<MergedTx>, p: Prefix, pattern: Pattern, id: Hash)
    requires id in ids && DueOne(txs, id, p, pattern)
    ensures Delivered(id, StripHeader(First(txs, id).value.payload), Some(First(txs, id).value.outputs))
            in Due(ids, txs, p, pattern)
    decreases |ids|
  {
    var before := ids[..|ids| - 1];
    assert ids == before + [ids[|ids| - 1]];
    if id in before {
      InDueContent(before, txs, p, pattern, id);
    }
  }

  /** From generator to engine: a transaction whose payload was packed for an engine's prefix, with
      the nonce rewritten any number of times until the id matched the engine's pattern, reaches
      that engine as the bytes that were packed, and reaches no other engine. */
  lemma PackedArrives(ids: seq<Hash>, txs: seq<MergedTx>, engines: EngineMap, p: Prefix, q: Prefix,
                      inner: seq<Byte>, nonces: seq<U32>, id: Hash, outputs: seq<TxOutputInfo>)
    requires p in engines && q in engines && id in ids && Matches(id, engines[p])
    requires First(txs, id) == Some(MergedTx(Some(id), WithNonces(PackHeader(inner, p), nonces), outputs))
    ensures Delivered(id, inner, Some(outputs)) in Due(ids, txs, p, engines[p])
    ensures id in IdsOf(Due(ids, txs, q, engines[q])) ==> q == p
  {
    PayloadRoundTrip(inner, p, nonces, p);
    PayloadRoundTrip(inner, p, nonces, q);
    InDueContent(ids, txs, p, engines[p], id);
    InDue(ids, txs, q, engines[q], id);
  }
}

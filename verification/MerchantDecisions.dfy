/** Which commands the merchant accepts, what each writes, and which error a refused one gets. */
module MerchantDecisions {
  import opened Wrappers
  import opened Primitives
  import opened Episodes
  import opened Merchant

  /** Some output is worth the amount. */
  ghost predicate Covered(outs: seq<TxOutputInfo>, amount: nat) {
    exists o :: o in outs && o.value >= amount
  }

  /** The script of some such output is known. */
  ghost predicate ScriptKnown(outs: seq<TxOutputInfo>, amount: nat) {
    exists o :: o in outs && o.value >= amount && o.scriptBytes.Some?
  }

  /** Some such output's script pushes the 33 bytes of a merchant key and checks a signature. */
  ghost predicate PaidToMerchant(outs: seq<TxOutputInfo>, amount: nat, keys: seq<PubKey>) {
    exists o, key :: o in outs && o.value >= amount && key in keys
                     && o.scriptBytes == Some([33] + key.serialized + [172])
  }

  ghost predicate Pays(outs: seq<TxOutputInfo>, amount: nat, keys: seq<PubKey>) {
    Covered(outs, amount) && (ScriptKnown(outs, amount) ==> PaidToMerchant(outs, amount, keys))
  }

  lemma OutputsDecide(outs: seq<TxOutputInfo>, amount: nat, keys: seq<PubKey>)
    ensures
      match OutputsError(Some(outs), amount, keys)
      case None => Pays(outs, amount, keys)
      case Some(error) =>
        && !Pays(outs, amount, keys)
        && error == if Covered(outs, amount) then InvalidScript else InvalidAmount
  {
    forall o
      ensures PaysMerchant(o, keys) <==>
              exists key :: key in keys && o.scriptBytes == Some([33] + key.serialized + [172])
    {
    }
  }

  /** A refused command changes nothing. */
  lemma RefusedUnchanged(s: Receipts, cmd: MerchantCommand, auth: Option<PubKey>, md: PayloadMetadata)
    ensures Execute(s, cmd, auth, md).1.Err? ==> Execute(s, cmd, auth, md).0 == s
  {
  }

  /** An invoice is issued by a merchant key, under a new number, for a positive amount. It is open and
      names nobody. */
  lemma CreateInvoiceIff(
    s: Receipts, id: nat, amount: nat, memo: Option<string>, auth: Option<PubKey>, md: PayloadMetadata)
    ensures
      var (s', res) := Execute(s, CreateInvoice(id, amount, memo), auth, md);
      var signed := auth.Some? && auth.value in s.merchantKeys;
      && (res.Ok? <==> id !in s.invoices && amount > 0 && signed)
      && (res == Err(InvalidCommand(Exists)) <==> id in s.invoices)
      && (res == Err(InvalidCommand(InvalidAmount)) <==> id !in s.invoices && amount == 0)
      && (res == Err(Unauthorized) <==> id !in s.invoices && amount > 0 && !signed)
      && (res.Ok? ==>
            && res.value == UndoCreate(id)
            && s' == s.(invoices :=
                 s.invoices[id := Invoice(id, amount, memo, md.acceptingTime, md.acceptingTime, Open, None, None)]))
  {
  }

  /** A payment is accepted from its payer, by a carrier not used before, of an open invoice, if the
      payer is registered and the carrier's outputs, when known, pay the merchant. */
  lemma MarkPaidIff(s: Receipts, id: nat, payer: PubKey, auth: Option<PubKey>, md: PayloadMetadata)
    ensures
      Execute(s, MarkPaid(id, payer), auth, md).1.Ok? <==>
      && auth == Some(payer) && md.txId !in s.usedCarrierTxs
      && id in s.invoices && s.invoices[id].status == Open && payer in s.customers
      && (md.txOutputs.Some? ==> Pays(md.txOutputs.value, s.invoices[id].amount, s.merchantKeys))
  {
    if md.txOutputs.Some? && id in s.invoices {
      OutputsDecide(md.txOutputs.value, s.invoices[id].amount, s.merchantKeys);
    }
  }

  /** What an accepted payment writes: the invoice with its payer and carrier, the carrier as used, and
      the invoice at the end of the payer's list unless it is there. */
  lemma MarkPaidWrites(s: Receipts, id: nat, payer: PubKey, auth: Option<PubKey>, md: PayloadMetadata)
    requires Execute(s, MarkPaid(id, payer), auth, md).1.Ok?
    ensures id in s.invoices && payer in s.customers
    ensures
      var (s', res) := Execute(s, MarkPaid(id, payer), auth, md);
      var inv, info := s.invoices[id], s.customers[payer];
      && res.value == UndoPaid(id)
      && s'.merchantKeys == s.merchantKeys && s'.subscriptions == s.subscriptions
      && s'.invoices == s.invoices[id := Invoice(inv.id, inv.amount, inv.memo, inv.createdAt, md.acceptingTime, Paid,
                                                 Some(payer), Some(md.txId))]
      && s'.usedCarrierTxs == s.usedCarrierTxs + {md.txId}
      && s'.customers == s.customers[payer := CustomerInfo(
           if id in info.invoices then info.invoices else info.invoices + [id], info.subscriptions)]
  {
  }

  /** Which error a refused payment gets: the first of these that applies. */
  lemma MarkPaidRefusals(s: Receipts, id: nat, payer: PubKey, auth: Option<PubKey>, md: PayloadMetadata)
    ensures
      var res := Execute(s, MarkPaid(id, payer), auth, md).1;
      if auth != Some(payer) then res == Err(Unauthorized)
      else if md.txId in s.usedCarrierTxs then res == Err(InvalidCommand(DuplicatePayment))
      else if id !in s.invoices then res == Err(InvalidCommand(NotFound))
      else if s.invoices[id].status == Canceled then res == Err(InvalidCommand(AlreadyCanceled))
      else if s.invoices[id].status == Paid || s.invoices[id].status == Acked
      then res == Err(InvalidCommand(AlreadyPaid))
      else if payer !in s.customers then res == Err(InvalidCommand(UnknownCustomer))
      else if md.txOutputs.Some? && !Covered(md.txOutputs.value, s.invoices[id].amount)
      then res == Err(InvalidCommand(InvalidAmount))
      else if md.txOutputs.Some? && !Pays(md.txOutputs.value, s.invoices[id].amount, s.merchantKeys)
      then res == Err(InvalidCommand(InvalidScript))
      else res.Ok?
  {
    if md.txOutputs.Some? && id in s.invoices {
      OutputsDecide(md.txOutputs.value, s.invoices[id].amount, s.merchantKeys);
    }
  }

  /** A receipt is acknowledged of a paid invoice, by anybody. */
  lemma AckReceiptIff(s: Receipts, id: nat, auth: Option<PubKey>, md: PayloadMetadata)
    ensures
      var (s', res) := Execute(s, AckReceipt(id), auth, md);
      && (res.Ok? <==> id in s.invoices && s.invoices[id].status == Paid)
      && (res == Err(InvalidCommand(AlreadyCanceled)) <==> id in s.invoices && s.invoices[id].status == Canceled)
      && (res == Err(InvalidCommand(AlreadyAcked)) <==> id in s.invoices && s.invoices[id].status == Acked)
      && (res == Err(InvalidCommand(NotFound)) <==> id !in s.invoices || s.invoices[id].status == Open)
      && (res.Ok? ==>
            && res.value == UndoAck(id)
            && s' == s.(invoices :=
                 s.invoices[id := s.invoices[id].(status := Acked, lastUpdate := md.acceptingTime)]))
  {
  }

  /** An open invoice is cancelled, by anybody. */
  lemma CancelInvoiceIff(s: Receipts, id: nat, auth: Option<PubKey>, md: PayloadMetadata)
    ensures
      var (s', res) := Execute(s, CancelInvoice(id), auth, md);
      && (res.Ok? <==> id in s.invoices && s.invoices[id].status == Open)
      && (res == Err(InvalidCommand(NotFound)) <==> id !in s.invoices)
      && (res == Err(InvalidCommand(AlreadyCanceled)) <==> id in s.invoices && s.invoices[id].status == Canceled)
      && (res == Err(InvalidCommand(AlreadyPaid)) <==>
            id in s.invoices && (s.invoices[id].status == Paid || s.invoices[id].status == Acked))
      && (res.Ok? ==>
            && res.value == UndoCancel(id)
            && s' == s.(invoices :=
                 s.invoices[id := s.invoices[id].(status := Canceled, lastUpdate := md.acceptingTime)]))
  {
  }

  /** A subscription is created by a merchant key, under a new number, with positive amount and
      interval, for a registered customer. It first runs one interval after its creation. */
  lemma CreateSubscriptionIff(
    s: Receipts, id: nat, customer: PubKey, amount: nat, interval: nat, auth: Option<PubKey>, md: PayloadMetadata)
    ensures
      var res := Execute(s, CreateSubscription(id, customer, amount, interval), auth, md).1;
      var signed := auth.Some? && auth.value in s.merchantKeys;
      && (res.Ok? <==> id !in s.subscriptions && amount > 0 && interval > 0 && signed && customer in s.customers)
      && (res == Err(InvalidCommand(SubscriptionExists)) <==> id in s.subscriptions)
      && (res == Err(InvalidCommand(InvalidAmount)) <==> id !in s.subscriptions && (amount == 0 || interval == 0))
      && (res == Err(Unauthorized) <==> id !in s.subscriptions && amount > 0 && interval > 0 && !signed)
      && (res == Err(InvalidCommand(UnknownCustomer)) <==>
            id !in s.subscriptions && amount > 0 && interval > 0 && signed && customer !in s.customers)
  {
  }

  lemma CreateSubscriptionWrites(
    s: Receipts, id: nat, customer: PubKey, amount: nat, interval: nat, auth: Option<PubKey>, md: PayloadMetadata)
    requires Execute(s, CreateSubscription(id, customer, amount, interval), auth, md).1.Ok?
    ensures customer in s.customers
    ensures
      var (s', res) := Execute(s, CreateSubscription(id, customer, amount, interval), auth, md);
      var info := s.customers[customer];
      && res.value == UndoCreateSubscription(id)
      && s' == s.(
           subscriptions :=
             s.subscriptions[id := Subscription(id, customer, amount, interval, md.acceptingTime + interval)],
           customers := s.customers[customer := CustomerInfo(info.invoices, info.subscriptions + [id])])
  {
  }

  /** A known subscription is processed, by anybody: it next runs one interval later. */
  lemma ProcessSubscriptionIff(s: Receipts, id: nat, auth: Option<PubKey>, md: PayloadMetadata)
    ensures
      var (s', res) := Execute(s, ProcessSubscription(id), auth, md);
      && (res.Ok? <==> id in s.subscriptions)
      && (id !in s.subscriptions ==> res == Err(InvalidCommand(SubscriptionNotFound)))
      && (res.Ok? ==>
            var sub := s.subscriptions[id];
            && res.value == UndoProcessSubscription(id, sub.nextRun)
            && s' == s.(subscriptions := s.subscriptions[id := Subscription(
                 sub.id, sub.customer, sub.amount, sub.interval, md.acceptingTime + sub.interval)]))
  {
  }

  /** A known subscription is cancelled, by anybody: it is gone, and off its customer's list. */
  lemma CancelSubscriptionIff(s: Receipts, id: nat, auth: Option<PubKey>, md: PayloadMetadata)
    ensures
      var (s', res) := Execute(s, CancelSubscription(id), auth, md);
      && (res.Ok? <==> id in s.subscriptions)
      && (id !in s.subscriptions ==> res == Err(InvalidCommand(SubscriptionNotFound)))
      && (res.Ok? ==>
            var c := s.subscriptions[id].customer;
            && res.value == UndoCancelSubscription(s.subscriptions[id])
            && s'.merchantKeys == s.merchantKeys && s'.invoices == s.invoices && s'.usedCarrierTxs == s.usedCarrierTxs
            && s'.subscriptions == s.subscriptions - {id} && s'.customers.Keys == s.customers.Keys
            && (forall other :: other in s.customers && other != c ==> s'.customers[other] == s.customers[other])
            && (c in s.customers ==>
                  && s'.customers[c].invoices == s.customers[c].invoices
                  && Thinned(s.customers[c].subscriptions, id, s'.customers[c].subscriptions)))
  {
    if id in s.subscriptions && s.subscriptions[id].customer in s.customers {
      var at := WithoutThins(s.customers[s.subscriptions[id].customer].subscriptions, id);
    }
  }

  /** A rollback succeeds exactly if the record it names is there; a restored subscription always does.
      One that does not succeed changes nothing. */
  lemma RollbackIff(s: Receipts, r: MerchantRollback)
    ensures
      var (s', ok) := Rollback(s, r);
      && (ok <==>
            match r
            case UndoCreate(id) => id in s.invoices
            case UndoPaid(id) => id in s.invoices
            case UndoAck(id) => id in s.invoices
            case UndoCancel(id) => id in s.invoices
            case UndoCreateSubscription(id) => id in s.subscriptions
            case UndoProcessSubscription(id, _) => id in s.subscriptions
            case UndoCancelSubscription(_) => true)
      && (!ok ==> s' == s)
  {
    if r.UndoCreate? && r.invoiceId !in s.invoices {
      assert s.invoices - {r.invoiceId} == s.invoices;
    }
  }

  /** `kept` is what is left of `ids`, in order, when every `id` is taken out: each kept id comes from
      its own place in `at`, places ascend, and no other place is left out. */
  ghost predicate ThinnedAt(ids: seq<nat>, id: nat, kept: seq<nat>, at: seq<nat>) {
    && |at| == |kept| && (forall i, j :: 0 <= i < j < |at| ==> at[i] < at[j])
    && (forall i :: 0 <= i < |at| ==> at[i] < |ids| && kept[i] == ids[at[i]] && kept[i] != id)
    && (forall n: nat :: n < |ids| && ids[n] != id ==> n in at)
  }

  ghost predicate Thinned(ids: seq<nat>, id: nat, kept: seq<nat>) {
    exists at :: ThinnedAt(ids, id, kept, at)
  }

  lemma {:induction false} WithoutThins(ids: seq<nat>, id: nat) returns (at: seq<nat>)
    ensures ThinnedAt(ids, id, Without(ids, id), at)
  {
    if ids == [] {
      return [];
    }
    var last := |ids| - 1;
    var before := WithoutThins(ids[..last], id);
    assert ids == ids[..last] + [ids[last]];
    if ids[last] == id {
      return before;
    }
    ThinnedPush(ids[..last], id, Without(ids[..last], id), before, ids[last]);
    return before + [last];
  }

  lemma ThinnedPush(ids: seq<nat>, id: nat, kept: seq<nat>, at: seq<nat>, next: nat)
    requires ThinnedAt(ids, id, kept, at) && next != id
    ensures ThinnedAt(ids + [next], id, kept + [next], at + [|ids|])
  {
    var at' := at + [|ids|];
    forall n: nat | n < |ids + [next]| && (ids + [next])[n] != id ensures n in at' {
      if n < |ids| {
        assert n in at;
      } else {
        assert at'[|at|] == n;
      }
    }
  }
}

/** The merchant episode honours the undo contract, up to `lastUpdate` and the order in which a
    customer's subscriptions are listed. */
module MerchantUndo {
  import opened Wrappers
  import opened Primitives
  import opened Sequences
  import opened Episodes
  import opened Merchant
  import opened MerchantInvariants

  ghost predicate SameInvoice(a: Invoice, b: Invoice) {
    a.(lastUpdate := b.lastUpdate) == b
  }

  ghost predicate SameCustomer(a: CustomerInfo, b: CustomerInfo) {
    a.invoices == b.invoices && multiset(a.subscriptions) == multiset(b.subscriptions)
  }

  ghost predicate SameInvoices(a: map<nat, Invoice>, b: map<nat, Invoice>) {
    a.Keys == b.Keys && forall id :: id in a ==> SameInvoice(a[id], b[id])
  }

  ghost predicate SameCustomers(a: map<PubKey, CustomerInfo>, b: map<PubKey, CustomerInfo>) {
    a.Keys == b.Keys && forall c :: c in a ==> SameCustomer(a[c], b[c])
  }

  ghost predicate Same(s: Receipts, t: Receipts) {
    && s.merchantKeys == t.merchantKeys
    && SameInvoices(s.invoices, t.invoices)
    && s.subscriptions == t.subscriptions
    && SameCustomers(s.customers, t.customers)
    && s.usedCarrierTxs == t.usedCarrierTxs
  }

  lemma SameReflexive(s: Receipts)
    ensures Same(s, s)
  {
  }

  lemma SameInv(s: Receipts, t: Receipts)
    requires Inv(s) && Same(s, t)
    ensures Inv(t)
  {
    forall i | i in t.invoices ensures InvoiceOk(t, i) {
      assert InvoiceOk(s, i) && SameInvoice(s.invoices[i], t.invoices[i]);
    }
    forall i | i in t.subscriptions ensures SubscriptionOk(t, i) {
      assert SubscriptionOk(s, i);
    }
    forall c | c in t.customers ensures CustomerOk(t, c) {
      assert CustomerOk(s, c) && SameCustomer(s.customers[c], t.customers[c]);
      forall i: nat ensures PaidBy(t, c, i) == PaidBy(s, c, i) && SubscribedBy(t, c, i) == SubscribedBy(s, c, i) {
        assert i in s.invoices ==> SameInvoice(s.invoices[i], t.invoices[i]);
      }
    }
    SameCarriers(s.invoices, t.invoices);
  }

  lemma SameCarriers(a: map<nat, Invoice>, b: map<nat, Invoice>)
    requires SameInvoices(a, b)
    ensures Carriers(a) == Carriers(b)
    ensures CarriersDistinct(a) ==> CarriersDistinct(b)
  {
    forall id | id in a ensures a[id].carrierTx == b[id].carrierTx {
      assert SameInvoice(a[id], b[id]);
    }
    forall tx ensures tx in Carriers(a) <==> tx in Carriers(b) {
      if tx in Carriers(a) {
        var id :| id in a && a[id].carrierTx == Some(tx);
        assert b[id].carrierTx == Some(tx);
      }
      if tx in Carriers(b) {
        var id :| id in b && b[id].carrierTx == Some(tx);
        assert a[id].carrierTx == Some(tx);
      }
    }
  }

  /** Each rollback leads back. */

  lemma PayUndone(s: Receipts, id: nat, payer: PubKey, md: PayloadMetadata)
    requires Inv(s) && id in s.invoices && payer in s.customers
    requires s.invoices[id].status == Open && md.txId !in s.usedCarrierTxs
    ensures
      Unpay(Pay(s, id, payer, md), id) ==
      s.(invoices := s.invoices[id := s.invoices[id].(lastUpdate := md.acceptingTime)])
  {
    var s' := Pay(s, id, payer, md);
    var back := Unpay(s', id);
    assert InvoiceOk(s, id);
    OpenUnlisted(s, id, payer);
    WithoutAppended(s.customers[payer].invoices, id);
    assert back.customers == s.customers;
    assert back.usedCarrierTxs == s.usedCarrierTxs;
    assert back.invoices == s.invoices[id := s.invoices[id].(lastUpdate := md.acceptingTime)];
  }

  lemma StatusUndone(s: Receipts, id: nat, status: InvoiceStatus, time: nat)
    requires id in s.invoices
    ensures
      ResetStatus(SetStatus(s, id, status, time), id, s.invoices[id].status) ==
      (s.(invoices := s.invoices[id := s.invoices[id].(lastUpdate := time)]), true)
  {
    var back := ResetStatus(SetStatus(s, id, status, time), id, s.invoices[id].status).0;
    assert back.invoices == s.invoices[id := s.invoices[id].(lastUpdate := time)];
  }

  lemma TouchedSame(s: Receipts, id: nat, time: nat)
    requires id in s.invoices
    ensures Same(s.(invoices := s.invoices[id := s.invoices[id].(lastUpdate := time)]), s)
    ensures s.(invoices := s.invoices[id := s.invoices[id].(lastUpdate := time)]) == s
      <==> s.invoices[id].lastUpdate == time
  {
    var t := s.(invoices := s.invoices[id := s.invoices[id].(lastUpdate := time)]);
    if s.invoices[id].lastUpdate == time {
      assert t.invoices == s.invoices;
    } else {
      assert t.invoices[id] != s.invoices[id];
    }
  }

  lemma Unsubscribed(s: Receipts, id: nat, c: PubKey)
    requires Inv(s) && id !in s.subscriptions && c in s.customers
    ensures id !in s.customers[c].subscriptions
  {
    assert CustomerOk(s, c) && SubscribedBy(s, c, id) == 0;
    Unlisted(s.customers[c].subscriptions, id);
  }

  lemma SubscribeUndone(s: Receipts, sub: Subscription)
    requires Inv(s) && sub.customer in s.customers && sub.id !in s.subscriptions
    ensures Unsubscribe(Subscribe(s, sub), sub.id) == s
  {
    var back := Unsubscribe(Subscribe(s, sub), sub.id);
    Unsubscribed(s, sub.id, sub.customer);
    WithoutAppended(s.customers[sub.customer].subscriptions, sub.id);
    assert back.customers == s.customers;
    assert back.subscriptions == s.subscriptions;
  }

  lemma Reappended(list: seq<nat>, id: nat)
    requires multiset(list)[id] == 1
    ensures id !in Without(list, id)
    ensures multiset(Without(list, id) + [id]) == multiset(list)
    ensures list != []
    ensures Without(list, id) + [id] == list <==> list[|list| - 1] == id
  {
    WithoutCounts(list, id);
    Unlisted(Without(list, id), id);
    ListedOnce(list, id);
    var last := |list| - 1;
    if list[last] == id {
      WithoutAppended(list[..last], id);
    }
  }

  /** The one place of an id listed once, if it is the last, is the only one. */
  lemma ListedOnce(list: seq<nat>, id: nat)
    requires multiset(list)[id] == 1
    ensures list != []
    ensures list[|list| - 1] == id ==> list == list[..|list| - 1] + [id] && id !in list[..|list| - 1]
  {
    SplitLast(list);
    if list[|list| - 1] == id {
      Unlisted(list[..|list| - 1], id);
    }
  }

  /** A cancelled and restored subscription only moves to the end of its customer's list. */
  lemma ResubscribeShape(s: Receipts, id: nat)
    requires id in s.subscriptions && s.subscriptions[id].id == id && s.subscriptions[id].customer in s.customers
    requires id !in Without(s.customers[s.subscriptions[id].customer].subscriptions, id)
    ensures
      var c := s.subscriptions[id].customer;
      var info := s.customers[c];
      Resubscribe(Unsubscribe(s, id), s.subscriptions[id]) ==
      s.(customers := s.customers[c := info.(subscriptions := Without(info.subscriptions, id) + [id])])
  {
    var sub := s.subscriptions[id];
    var back := Resubscribe(Unsubscribe(s, id), sub);
    assert back.subscriptions == s.subscriptions;
    var info := s.customers[sub.customer];
    assert back.customers
        == s.customers[sub.customer := info.(subscriptions := Without(info.subscriptions, id) + [id])];
  }

  lemma UnsubscribeUndone(s: Receipts, id: nat)
    requires Inv(s) && id in s.subscriptions && s.subscriptions[id].customer in s.customers
    ensures
      var sub := s.subscriptions[id];
      var list: seq<nat> := s.customers[sub.customer].subscriptions;
      && Same(Resubscribe(Unsubscribe(s, id), sub), s)
      && list != []
      && (Resubscribe(Unsubscribe(s, id), sub) == s <==> list[|list| - 1] == id)
  {
    var c := s.subscriptions[id].customer;
    var info := s.customers[c];
    assert multiset(info.subscriptions)[id] == 1 && s.subscriptions[id].id == id by {
      assert SubscriptionOk(s, id) && CustomerOk(s, c) && SubscribedBy(s, c, id) == 1;
    }
    Reappended(info.subscriptions, id);
    ResubscribeShape(s, id);
    RelistedSame(s, c, Without(info.subscriptions, id) + [id]);
  }

  lemma RelistedSame(s: Receipts, c: PubKey, list: seq<nat>)
    requires c in s.customers && multiset(list) == multiset(s.customers[c].subscriptions)
    ensures
      var t := s.(customers := s.customers[c := s.customers[c].(subscriptions := list)]);
      Same(t, s) && (t == s <==> list == s.customers[c].subscriptions)
  {
    var t := s.(customers := s.customers[c := s.customers[c].(subscriptions := list)]);
    if list == s.customers[c].subscriptions {
      assert t.customers == s.customers;
    } else {
      assert t.customers[c] != s.customers[c];
    }
  }

  /** Whether the episode is handed back exactly, `lastUpdate` and list order included, can be
      told before the command is run. */
  ghost predicate UndoneExactly(s: Receipts, cmd: MerchantCommand, md: PayloadMetadata) {
    match cmd
    case MarkPaid(id, _) => id in s.invoices ==> s.invoices[id].lastUpdate == md.acceptingTime
    case AckReceipt(id) => id in s.invoices ==> s.invoices[id].lastUpdate == md.acceptingTime
    case CancelInvoice(id) => id in s.invoices ==> s.invoices[id].lastUpdate == md.acceptingTime
    case CancelSubscription(id) =>
      id in s.subscriptions && s.subscriptions[id].customer in s.customers ==>
        var list := s.customers[s.subscriptions[id].customer].subscriptions;
        list != [] ==> list[|list| - 1] == id
    case _ => true
  }

  /** Rolling back with `r` succeeds and hands back the same episode, exactly if nothing the
      command disturbed is left disturbed. */
  ghost predicate HandsBack(s: Receipts, cmd: MerchantCommand, md: PayloadMetadata, s': Receipts, r: MerchantRollback) {
    var (back, ok) := Rollback(s', r);
    ok && Same(back, s) && (back == s <==> UndoneExactly(s, cmd, md))
  }

  lemma UndoCreation(s: Receipts, inv: Invoice, cmd: MerchantCommand, md: PayloadMetadata)
    requires inv.id !in s.invoices && cmd.CreateInvoice?
    ensures HandsBack(s, cmd, md, WithInvoice(s, inv), UndoCreate(inv.id))
  {
    assert WithInvoice(s, inv).invoices - {inv.id} == s.invoices;
    SameReflexive(s);
  }

  lemma UndoPayment(s: Receipts, id: nat, payer: PubKey, md: PayloadMetadata)
    requires Inv(s) && id in s.invoices && payer in s.customers
    requires s.invoices[id].status == Open && md.txId !in s.usedCarrierTxs
    ensures HandsBack(s, MarkPaid(id, payer), md, Pay(s, id, payer, md), UndoPaid(id))
  {
    PayUndone(s, id, payer, md);
    TouchedSame(s, id, md.acceptingTime);
  }

  lemma UndoStatus(s: Receipts, id: nat, md: PayloadMetadata)
    requires id in s.invoices
    ensures s.invoices[id].status == Paid ==>
      HandsBack(s, AckReceipt(id), md, SetStatus(s, id, Acked, md.acceptingTime), UndoAck(id))
    ensures s.invoices[id].status == Open ==>
      HandsBack(s, CancelInvoice(id), md, SetStatus(s, id, Canceled, md.acceptingTime), UndoCancel(id))
  {
    StatusUndone(s, id, Acked, md.acceptingTime);
    StatusUndone(s, id, Canceled, md.acceptingTime);
    TouchedSame(s, id, md.acceptingTime);
  }

  lemma UndoSubscription(s: Receipts, sub: Subscription, cmd: MerchantCommand, md: PayloadMetadata)
    requires Inv(s) && sub.customer in s.customers && sub.id !in s.subscriptions && cmd.CreateSubscription?
    ensures HandsBack(s, cmd, md, Subscribe(s, sub), UndoCreateSubscription(sub.id))
  {
    SubscribeUndone(s, sub);
    SameReflexive(s);
  }

  lemma UndoProcessing(s: Receipts, id: nat, nextRun: nat, md: PayloadMetadata)
    requires id in s.subscriptions
    ensures HandsBack(s, ProcessSubscription(id), md, SetNextRun(s, id, nextRun),
                      UndoProcessSubscription(id, s.subscriptions[id].nextRun))
  {
    var back := Rollback(SetNextRun(s, id, nextRun), UndoProcessSubscription(id, s.subscriptions[id].nextRun)).0;
    assert back.subscriptions == s.subscriptions;
    SameReflexive(s);
  }

  lemma CancelledCustomer(s: Receipts, id: nat)
    requires Inv(s) && id in s.subscriptions
    ensures s.subscriptions[id].customer in s.customers
  {
    assert SubscriptionOk(s, id);
  }

  lemma UndoCancellation(s: Receipts, id: nat, md: PayloadMetadata, s': Receipts, back: Receipts)
    requires id in s.subscriptions && s.subscriptions[id].customer in s.customers
    requires s.customers[s.subscriptions[id].customer].subscriptions != []
    requires Rollback(s', UndoCancelSubscription(s.subscriptions[id])) == (back, true) && Same(back, s)
    requires
      var list := s.customers[s.subscriptions[id].customer].subscriptions;
      back == s <==> list[|list| - 1] == id
    ensures HandsBack(s, CancelSubscription(id), md, s', UndoCancelSubscription(s.subscriptions[id]))
  {
  }

  lemma UndoCancelled(s: Receipts, id: nat, md: PayloadMetadata)
    requires Inv(s) && id in s.subscriptions
    ensures HandsBack(s, CancelSubscription(id), md, Unsubscribe(s, id), UndoCancelSubscription(s.subscriptions[id]))
  {
    var sub, gone := s.subscriptions[id], Unsubscribe(s, id);
    CancelledCustomer(s, id);
    UnsubscribeUndone(s, id);
    Resubscribed(gone, sub);
    UndoCancellation(s, id, md, gone, Resubscribe(gone, sub));
  }

  lemma Resubscribed(s: Receipts, sub: Subscription)
    ensures Rollback(s, UndoCancelSubscription(sub)) == (Resubscribe(s, sub), true)
  {
  }

  lemma UndoInvoiceCommand(s: Receipts, cmd: MerchantCommand, auth: Option<PubKey>, md: PayloadMetadata)
    requires Inv(s) && Execute(s, cmd, auth, md).1.Ok?
    requires cmd.CreateInvoice? || cmd.MarkPaid? || cmd.AckReceipt? || cmd.CancelInvoice?
    ensures HandsBack(s, cmd, md, Execute(s, cmd, auth, md).0, Execute(s, cmd, auth, md).1.value)
  {
    match cmd {
      case CreateInvoice(id, amount, memo) =>
        var inv := Invoice(id, amount, memo, md.acceptingTime, md.acceptingTime, Open, None, None);
        assert Execute(s, cmd, auth, md) == (WithInvoice(s, inv), Ok(UndoCreate(id)));
        UndoCreation(s, inv, cmd, md);
      case MarkPaid(id, payer) =>
        assert Execute(s, cmd, auth, md) == (Pay(s, id, payer, md), Ok(UndoPaid(id)));
        UndoPayment(s, id, payer, md);
      case AckReceipt(id) =>
        assert Execute(s, cmd, auth, md) == (SetStatus(s, id, Acked, md.acceptingTime), Ok(UndoAck(id)));
        UndoStatus(s, id, md);
      case CancelInvoice(id) =>
        assert Execute(s, cmd, auth, md) == (SetStatus(s, id, Canceled, md.acceptingTime), Ok(UndoCancel(id)));
        UndoStatus(s, id, md);
    }
  }

  lemma UndoSubscriptionCommand(s: Receipts, cmd: MerchantCommand, auth: Option<PubKey>, md: PayloadMetadata)
    requires Inv(s) && Execute(s, cmd, auth, md).1.Ok?
    requires cmd.CreateSubscription? || cmd.ProcessSubscription? || cmd.CancelSubscription?
    ensures HandsBack(s, cmd, md, Execute(s, cmd, auth, md).0, Execute(s, cmd, auth, md).1.value)
  {
    match cmd {
      case CreateSubscription(id, customer, amount, interval) =>
        var sub := Subscription(id, customer, amount, interval, md.acceptingTime + interval);
        assert Execute(s, cmd, auth, md) == (Subscribe(s, sub), Ok(UndoCreateSubscription(id)));
        UndoSubscription(s, sub, cmd, md);
      case ProcessSubscription(id) =>
        var sub := s.subscriptions[id];
        var nextRun := md.acceptingTime + sub.interval;
        assert Execute(s, cmd, auth, md) == (SetNextRun(s, id, nextRun), Ok(UndoProcessSubscription(id, sub.nextRun)));
        UndoProcessing(s, id, nextRun, md);
      case CancelSubscription(id) =>
        assert Execute(s, cmd, auth, md) == (Unsubscribe(s, id), Ok(UndoCancelSubscription(s.subscriptions[id])));
        UndoCancelled(s, id, md);
    }
  }

  /** Rolling back an accepted command succeeds and hands back the same episode, and hands it back
      exactly if and only if `lastUpdate` and the list order were not disturbed. */
  lemma UndoSame(s: Receipts, cmd: MerchantCommand, auth: Option<PubKey>, md: PayloadMetadata)
    requires Inv(s) && Execute(s, cmd, auth, md).1.Ok?
    ensures HandsBack(s, cmd, md, Execute(s, cmd, auth, md).0, Execute(s, cmd, auth, md).1.value)
  {
    if cmd.CreateInvoice? || cmd.MarkPaid? || cmd.AckReceipt? || cmd.CancelInvoice? {
      UndoInvoiceCommand(s, cmd, auth, md);
    } else {
      UndoSubscriptionCommand(s, cmd, auth, md);
    }
  }

  /** Same episodes take the same decisions and stay the same. */

  lemma CheckRespects(s: Receipts, t: Receipts, cmd: MerchantCommand, auth: Option<PubKey>, md: PayloadMetadata)
    requires Same(s, t)
    ensures CheckCommand(s, cmd, auth, md) == CheckCommand(t, cmd, auth, md)
  {
    match cmd {
      case MarkPaid(id, _) => assert id in s.invoices ==> SameInvoice(s.invoices[id], t.invoices[id]);
      case AckReceipt(id) => assert id in s.invoices ==> SameInvoice(s.invoices[id], t.invoices[id]);
      case CancelInvoice(id) => assert id in s.invoices ==> SameInvoice(s.invoices[id], t.invoices[id]);
      case _ =>
    }
  }

  lemma SameInvoicesPut(a: map<nat, Invoice>, b: map<nat, Invoice>, id: nat, x: Invoice, y: Invoice)
    requires SameInvoices(a, b) && SameInvoice(x, y)
    ensures SameInvoices(a[id := x], b[id := y])
  {
    assert a[id := x].Keys == a.Keys + {id} && b[id := y].Keys == b.Keys + {id};
  }

  lemma SameCustomersPut(a: map<PubKey, CustomerInfo>, b: map<PubKey, CustomerInfo>, c: PubKey, x: CustomerInfo,
                         y: CustomerInfo)
    requires SameCustomers(a, b) && SameCustomer(x, y)
    ensures SameCustomers(a[c := x], b[c := y])
  {
    assert a[c := x].Keys == a.Keys + {c} && b[c := y].Keys == b.Keys + {c};
  }

  lemma PayRespects(s: Receipts, t: Receipts, id: nat, payer: PubKey, md: PayloadMetadata)
    requires Same(s, t) && id in s.invoices && payer in s.customers
    ensures Same(Pay(s, id, payer, md), Pay(t, id, payer, md))
  {
    var s', t' := Pay(s, id, payer, md), Pay(t, id, payer, md);
    assert SameInvoice(s.invoices[id], t.invoices[id]) && SameCustomer(s.customers[payer], t.customers[payer]);
    SameInvoicesPut(s.invoices, t.invoices, id, s'.invoices[id], t'.invoices[id]);
    SameCustomersPut(s.customers, t.customers, payer, s'.customers[payer], t'.customers[payer]);
  }

  lemma UnpayRespects(s: Receipts, t: Receipts, id: nat)
    requires Same(s, t) && id in s.invoices
    ensures Same(Unpay(s, id), Unpay(t, id))
  {
    var s', t' := Unpay(s, id), Unpay(t, id);
    assert SameInvoice(s.invoices[id], t.invoices[id]);
    SameInvoicesPut(s.invoices, t.invoices, id, s'.invoices[id], t'.invoices[id]);
    var payer := s.invoices[id].payer;
    if payer.Some? && payer.value in s.customers {
      assert SameCustomer(s.customers[payer.value], t.customers[payer.value]);
      SameCustomersPut(s.customers, t.customers, payer.value, s'.customers[payer.value], t'.customers[payer.value]);
    }
  }

  lemma SubscribeRespects(s: Receipts, t: Receipts, sub: Subscription)
    requires Same(s, t) && sub.customer in s.customers
    ensures Same(Subscribe(s, sub), Subscribe(t, sub))
  {
    var c := sub.customer;
    assert SameCustomer(s.customers[c], t.customers[c]);
    SameCustomersPut(s.customers, t.customers, c, Subscribe(s, sub).customers[c], Subscribe(t, sub).customers[c]);
  }

  lemma UnsubscribeRespects(s: Receipts, t: Receipts, id: nat)
    requires Same(s, t) && id in s.subscriptions
    ensures Same(Unsubscribe(s, id), Unsubscribe(t, id))
  {
    var c := s.subscriptions[id].customer;
    if c in s.customers {
      assert SameCustomer(s.customers[c], t.customers[c]);
      WithoutCounts(s.customers[c].subscriptions, id);
      WithoutCounts(t.customers[c].subscriptions, id);
      SameCustomersPut(s.customers, t.customers, c, Unsubscribe(s, id).customers[c], Unsubscribe(t, id).customers[c]);
    }
  }

  lemma ResubscribeRespects(s: Receipts, t: Receipts, sub: Subscription)
    requires Same(s, t)
    ensures Same(Resubscribe(s, sub), Resubscribe(t, sub))
  {
    var c := sub.customer;
    if c in s.customers {
      assert SameCustomer(s.customers[c], t.customers[c]);
      Unlisted(s.customers[c].subscriptions, sub.id);
      Unlisted(t.customers[c].subscriptions, sub.id);
      if sub.id !in s.customers[c].subscriptions {
        SubscribeRespects(s, t, sub);
      }
    }
  }

  lemma ApplyInvoiceRespects(s: Receipts, t: Receipts, cmd: MerchantCommand, auth: Option<PubKey>, md: PayloadMetadata)
    requires Same(s, t) && CheckCommand(s, cmd, auth, md).None? && CheckCommand(t, cmd, auth, md).None?
    requires cmd.CreateInvoice? || cmd.MarkPaid? || cmd.AckReceipt? || cmd.CancelInvoice?
    ensures Same(Apply(s, cmd, auth, md).0, Apply(t, cmd, auth, md).0)
    ensures Apply(s, cmd, auth, md).1 == Apply(t, cmd, auth, md).1
  {
    var s', t' := Apply(s, cmd, auth, md).0, Apply(t, cmd, auth, md).0;
    match cmd {
      case CreateInvoice(id, _, _) =>
        SameInvoicesPut(s.invoices, t.invoices, id, s'.invoices[id], t'.invoices[id]);
      case MarkPaid(id, payer) => PayRespects(s, t, id, payer, md);
      case AckReceipt(id) =>
        assert SameInvoice(s.invoices[id], t.invoices[id]);
        SameInvoicesPut(s.invoices, t.invoices, id, s'.invoices[id], t'.invoices[id]);
      case CancelInvoice(id) =>
        assert SameInvoice(s.invoices[id], t.invoices[id]);
        SameInvoicesPut(s.invoices, t.invoices, id, s'.invoices[id], t'.invoices[id]);
    }
  }

  lemma ApplySubscriptionRespects(s: Receipts, t: Receipts, cmd: MerchantCommand, auth: Option<PubKey>,
                                  md: PayloadMetadata)
    requires Same(s, t) && CheckCommand(s, cmd, auth, md).None? && CheckCommand(t, cmd, auth, md).None?
    requires cmd.CreateSubscription? || cmd.ProcessSubscription? || cmd.CancelSubscription?
    ensures Same(Apply(s, cmd, auth, md).0, Apply(t, cmd, auth, md).0)
    ensures Apply(s, cmd, auth, md).1 == Apply(t, cmd, auth, md).1
  {
    match cmd {
      case CreateSubscription(id, customer, amount, interval) =>
        SubscribeRespects(s, t, Subscription(id, customer, amount, interval, md.acceptingTime + interval));
      case ProcessSubscription(id) =>
      case CancelSubscription(id) => UnsubscribeRespects(s, t, id);
    }
  }

  lemma ExecuteSame(s: Receipts, t: Receipts, cmd: MerchantCommand, auth: Option<PubKey>, md: PayloadMetadata)
    requires Same(s, t)
    ensures Same(Execute(s, cmd, auth, md).0, Execute(t, cmd, auth, md).0)
    ensures Execute(s, cmd, auth, md).1 == Execute(t, cmd, auth, md).1
  {
    CheckRespects(s, t, cmd, auth, md);
    if CheckCommand(s, cmd, auth, md).None? {
      match cmd {
        case CreateInvoice(_, _, _) => ApplyInvoiceRespects(s, t, cmd, auth, md);
        case MarkPaid(_, _) => ApplyInvoiceRespects(s, t, cmd, auth, md);
        case AckReceipt(_) => ApplyInvoiceRespects(s, t, cmd, auth, md);
        case CancelInvoice(_) => ApplyInvoiceRespects(s, t, cmd, auth, md);
        case _ => ApplySubscriptionRespects(s, t, cmd, auth, md);
      }
    }
  }

  lemma ResetStatusRespects(s: Receipts, t: Receipts, id: nat, status: InvoiceStatus)
    requires Same(s, t)
    ensures Same(ResetStatus(s, id, status).0, ResetStatus(t, id, status).0)
    ensures ResetStatus(s, id, status).1 == ResetStatus(t, id, status).1
  {
    if id in s.invoices {
      assert SameInvoice(s.invoices[id], t.invoices[id]);
      SameInvoicesPut(s.invoices, t.invoices, id, s.invoices[id].(status := status), t.invoices[id].(status := status));
    }
  }

  lemma RollbackSame(s: Receipts, t: Receipts, r: MerchantRollback)
    requires Same(s, t)
    ensures Same(Rollback(s, r).0, Rollback(t, r).0)
    ensures Rollback(s, r).1 == Rollback(t, r).1
  {
    match r {
      case UndoCreate(id) =>
        assert (s.invoices - {id}).Keys == s.invoices.Keys - {id} && (t.invoices - {id}).Keys == t.invoices.Keys - {id};
      case UndoPaid(id) =>
        if id in s.invoices {
          UnpayRespects(s, t, id);
        }
      case UndoAck(id) => ResetStatusRespects(s, t, id, Paid);
      case UndoCancel(id) => ResetStatusRespects(s, t, id, Open);
      case UndoCreateSubscription(id) =>
        if id in s.subscriptions {
          UnsubscribeRespects(s, t, id);
        }
      case UndoProcessSubscription(id, prev) =>
      case UndoCancelSubscription(sub) => ResubscribeRespects(s, t, sub);
    }
  }

  /** The merchant as an episode, started from given tables. */

  function Impl(tables: Tables): Episode<Receipts, MerchantCommand, MerchantRollback, MerchantError> {
    Episode((keys, md) => Load(keys, tables), Execute, Rollback)
  }

  ghost function Rules(): Contract<Receipts> {
    Contract(ps => true, s => Inv(s), (s, t) => Same(s, t))
  }

  lemma MerchantLaw(tables: Tables, s: Receipts, cmd: MerchantCommand, auth: Option<PubKey>, md: PayloadMetadata)
    requires Inv(s)
    ensures ExecuteLaw(Impl(tables), Rules(), s, cmd, auth, md)
  {
    if Execute(s, cmd, auth, md).1.Ok? {
      ExecuteInv(s, cmd, auth, md);
      UndoSame(s, cmd, auth, md);
    }
  }

  lemma SameIsEquivalence()
    ensures Equivalence(Rules())
  {
    forall s, t | Inv(s) && Same(s, t) ensures Inv(t) {
      SameInv(s, t);
    }
    forall s: Receipts, t, u | Same(s, t) && Same(t, u) ensures Same(s, u) {
      SameTransitive(s, t, u);
    }
  }

  lemma SameTransitive(s: Receipts, t: Receipts, u: Receipts)
    requires Same(s, t) && Same(t, u)
    ensures Same(s, u)
  {
    forall id | id in s.invoices ensures SameInvoice(s.invoices[id], u.invoices[id]) {
      assert SameInvoice(s.invoices[id], t.invoices[id]) && SameInvoice(t.invoices[id], u.invoices[id]);
    }
    forall c | c in s.customers ensures SameCustomer(s.customers[c], u.customers[c]) {
      assert SameCustomer(s.customers[c], t.customers[c]) && SameCustomer(t.customers[c], u.customers[c]);
    }
  }

  /** The engine's theorems apply to the merchant. */
  lemma MerchantUndoes(tables: Tables)
    requires TablesOk(tables)
    ensures Undoes(Impl(tables), Rules())
  {
    var ep, k := Impl(tables), Rules();
    SameIsEquivalence();
    forall keys, md | k.admits(keys) ensures k.inv(ep.initialize(keys, md)) {
      LoadInv(keys, tables);
    }
    forall s, c, a, md | k.inv(s) ensures ExecuteLaw(ep, k, s, c, a, md) {
      MerchantLaw(tables, s, c, a, md);
    }
    forall s, t, c, a, md | k.inv(s) && k.same(s, t) ensures ExecuteRespects(ep, k, s, t, c, a, md) {
      ExecuteSame(s, t, c, a, md);
    }
    forall s, t, r | k.inv(s) && k.same(s, t) ensures RollbackRespects(ep, k, s, t, r) {
      RollbackSame(s, t, r);
    }
  }
}

/** Merchants and the one database of their process: what the tables hold next to what they hold. */
module MerchantDatabase {
  import opened Wrappers
  import opened Primitives
  import opened Episodes
  import opened Merchant
  import opened MerchantInvariants
  import opened MerchantUndo

  /** A merchant whose tables nobody else writes leaves them equal to its own state. */
  lemma CommandMirrored(s: Receipts, cmd: MerchantCommand, auth: Option<PubKey>, md: PayloadMetadata)
    requires Inv(s)
    ensures Stored(TablesOf(s), s, cmd, auth, md) == TablesOf(Execute(s, cmd, auth, md).0)
  {
    if CheckCommand(s, cmd, auth, md).None? {
      match cmd {
        case MarkPaid(id, _) => assert InvoiceOk(s, id);
        case AckReceipt(id) => assert InvoiceOk(s, id);
        case CancelInvoice(id) => assert InvoiceOk(s, id);
        case ProcessSubscription(id) => assert SubscriptionOk(s, id);
        case CancelSubscription(id) => assert SubscriptionOk(s, id);
        case _ =>
      }
    }
  }

  lemma RollbackMirrored(s: Receipts, r: MerchantRollback)
    requires Inv(s)
    ensures StoreRollback(TablesOf(s), s, r) == TablesOf(Rollback(s, r).0)
  {
    match r {
      case UndoPaid(id) => assert id in s.invoices ==> InvoiceOk(s, id);
      case UndoAck(id) => assert id in s.invoices ==> InvoiceOk(s, id);
      case UndoCancel(id) => assert id in s.invoices ==> InvoiceOk(s, id);
      case UndoCreateSubscription(id) =>
        if id in s.subscriptions {
          assert SubscriptionOk(s, id);
        } else {
          assert s.subscriptions - {id} == s.subscriptions;
        }
      case UndoProcessSubscription(id, _) => assert id in s.subscriptions ==> SubscriptionOk(s, id);
      case _ =>
    }
  }

  /** The tables of a merchant in agreement are in agreement. */
  lemma TablesOkOf(s: Receipts)
    requires Inv(s)
    ensures TablesOk(TablesOf(s))
  {
    var t := Load([], TablesOf(s));
    forall i | i in t.invoices ensures InvoiceOk(t, i) {
      assert InvoiceOk(s, i);
    }
    forall i | i in t.subscriptions ensures SubscriptionOk(t, i) {
      assert SubscriptionOk(s, i);
    }
    forall c | c in t.customers ensures CustomerOk(t, c) {
      assert CustomerOk(s, c);
      assert forall i: nat :: SubscribedBy(t, c, i) == SubscribedBy(s, c, i);
      assert forall i: nat :: PaidBy(t, c, i) == PaidBy(s, c, i);
    }
  }

  /** Executing and rolling back do not depend on the tables; any will do to speak of them. */
  const NO_TABLES: Tables := Tables(map[], map[], map[])

  lemma NoTablesUndoes()
    ensures Undoes(Impl(NO_TABLES), Rules())
  {
    assert TablesOk(NO_TABLES) by {
      assert Carriers(map[]) == {};
    }
    MerchantUndoes(NO_TABLES);
  }

  /** Tables that count as the same load as the same merchant. */
  ghost predicate SameTables(a: Tables, b: Tables) {
    SameInvoices(a.invoices, b.invoices) && a.subscriptions == b.subscriptions
      && SameCustomers(a.customers, b.customers)
  }

  lemma LoadSame(keys: seq<PubKey>, a: Tables, b: Tables)
    requires SameTables(a, b)
    ensures Same(Load(keys, a), Load(keys, b))
  {
    SameCarriers(a.invoices, b.invoices);
  }

  /** Registering a customer writes an empty row, over the customer's row if there is one. */
  function Registered(tables: Tables, c: PubKey): Tables {
    PutCustomerIn(tables, c, CustomerInfo([], []))
  }

  predicate Named(tables: Tables, c: PubKey) {
    || (exists id :: id in tables.invoices && tables.invoices[id].payer == Some(c))
    || (exists id :: id in tables.subscriptions && tables.subscriptions[id].customer == c)
  }

  /** It keeps the tables in agreement exactly if no invoice and no subscription names the customer. */
  lemma RegisterOkIff(tables: Tables, c: PubKey)
    requires TablesOk(tables)
    ensures TablesOk(Registered(tables, c)) <==> !Named(tables, c)
  {
    var t := Load([], Registered(tables, c));
    if id :| id in tables.invoices && tables.invoices[id].payer == Some(c) {
      assert PaidBy(t, c, id) == 1 && multiset(t.customers[c].invoices)[id] == 0;
      assert !CustomerOk(t, c);
    } else if id :| id in tables.subscriptions && tables.subscriptions[id].customer == c {
      assert SubscribedBy(t, c, id) == 1 && multiset(t.customers[c].subscriptions)[id] == 0;
      assert !CustomerOk(t, c);
    } else {
      UnnamedRegistered(tables, c);
    }
  }

  lemma UnnamedRegistered(tables: Tables, c: PubKey)
    requires TablesOk(tables) && !Named(tables, c)
    ensures TablesOk(Registered(tables, c))
  {
    var s, t := Load([], tables), Load([], Registered(tables, c));
    forall i | i in t.invoices ensures InvoiceOk(t, i) {
      assert InvoiceOk(s, i);
    }
    forall i | i in t.subscriptions ensures SubscriptionOk(t, i) {
      assert SubscriptionOk(s, i);
    }
    forall other | other in t.customers ensures CustomerOk(t, other) {
      assert other != c ==> CustomerOk(s, other);
      assert forall i: nat :: PaidBy(t, other, i) == PaidBy(s, other, i);
      assert forall i: nat :: SubscribedBy(t, other, i) == SubscribedBy(s, other, i);
      assert other == c ==> forall i: nat :: PaidBy(t, c, i) == 0 && SubscribedBy(t, c, i) == 0;
    }
  }

  /** Two merchants over the same tables, each unaware of what the other writes. */

  const PRICE: nat := 5

  const ISSUE: MerchantCommand := CreateInvoice(7, PRICE, None)

  /** One customer, `c`, and nothing else. */
  function OneCustomer(c: PubKey): Tables {
    Tables(map[], map[], map[c := CustomerInfo([], [])])
  }

  /** The tables after the first merchant issues invoice 7 and `c` pays it, and the second merchant,
      started before that, issues an invoice 7 of its own. */
  function AfterBoth(a: PubKey, c: PubKey, md1: PayloadMetadata, md2: PayloadMetadata, md3: PayloadMetadata): Tables {
    var first := Load([a], OneCustomer(c));
    var second := first;
    var tables1 := Stored(OneCustomer(c), first, ISSUE, Some(a), md1);
    var tables2 := Stored(tables1, Execute(first, ISSUE, Some(a), md1).0, MarkPaid(7, c), Some(c), md2);
    Stored(tables2, second, ISSUE, Some(a), md3)
  }

  function Issued(md: PayloadMetadata): Invoice {
    Invoice(7, PRICE, None, md.acceptingTime, md.acceptingTime, Open, None, None)
  }

  lemma AfterBothIs(a: PubKey, c: PubKey, md1: PayloadMetadata, md2: PayloadMetadata, md3: PayloadMetadata)
    requires OutputsError(md2.txOutputs, PRICE, [a]).None?
    ensures AfterBoth(a, c, md1, md2, md3) == Tables(map[7 := Issued(md3)], map[], map[c := CustomerInfo([7], [])])
    ensures
      var first := Load([a], OneCustomer(c));
      var issued := Execute(first, ISSUE, Some(a), md1).0;
      Execute(first, ISSUE, Some(a), md1).1.Ok? && Execute(issued, MarkPaid(7, c), Some(c), md2).1.Ok?
  {
    var first := Load([a], OneCustomer(c));
    assert CheckCommand(first, ISSUE, Some(a), md1).None? && CheckCommand(first, ISSUE, Some(a), md3).None?;
    var issued := WithInvoice(first, Issued(md1));
    assert Execute(first, ISSUE, Some(a), md1).0 == issued;
    var tables1 := Stored(OneCustomer(c), first, ISSUE, Some(a), md1);
    assert tables1 == PutInvoiceIn(OneCustomer(c), Issued(md1));
    assert CheckCommand(issued, MarkPaid(7, c), Some(c), md2).None?;
    var paid := Pay(issued, 7, c, md2);
    assert paid.customers[c] == CustomerInfo([7], []);
    var tables2 := Stored(tables1, issued, MarkPaid(7, c), Some(c), md2);
    assert tables2 == PutCustomerIn(PutInvoiceIn(tables1, paid.invoices[7]), c, paid.customers[c]);
    assert tables2.customers == map[c := CustomerInfo([7], [])];
    assert Stored(tables2, first, ISSUE, Some(a), md3) == PutInvoiceIn(tables2, Issued(md3));
  }

  /** A third merchant loads from them a customer who lists an invoice that names nobody. Its indices
      disagree, and undoing the payment of that invoice takes it off the customer's list. The outputs
      of both payments are known and good, or unknown. */
  lemma TwoMerchantsDisagree(
    a: PubKey, c: PubKey, md1: PayloadMetadata, md2: PayloadMetadata, md3: PayloadMetadata, later: PayloadMetadata)
    requires OutputsError(md2.txOutputs, PRICE, [a]).None? && OutputsError(later.txOutputs, PRICE, [a]).None?
    ensures
      var third := Load([a], AfterBoth(a, c, md1, md2, md3));
      var (paid, res) := Execute(third, MarkPaid(7, c), Some(c), later);
      && !Inv(third)
      && res.Ok? && !Same(Rollback(paid, res.value).0, third)
  {
    AfterBothIs(a, c, md1, md2, md3);
    var third := Load([a], AfterBoth(a, c, md1, md2, md3));
    assert Carriers(third.invoices) == {};
    assert !CustomerOk(third, c) by {
      assert multiset(third.customers[c].invoices)[7] == 1 && PaidBy(third, c, 7) == 0;
    }
    var (paid, res) := Execute(third, MarkPaid(7, c), Some(c), later);
    var back := Rollback(paid, res.value).0;
    assert Without([7], 7) == [] by {
      assert [7][..0] == [];
    }
    assert back.customers[c].invoices == [];
    assert !SameCustomer(back.customers[c], third.customers[c]);
  }
}

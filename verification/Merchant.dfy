/** What the merchant episode (kdapp-merchant/src/episode.rs) computes. */
module Merchant {
  import opened Wrappers
  import opened Primitives
  import opened Episodes

  datatype MerchantCommand =
    | CreateInvoice(invoiceId: nat, amount: nat, memo: Option<string>)
    | MarkPaid(invoiceId: nat, payer: PubKey)
    | AckReceipt(invoiceId: nat)
    | CancelInvoice(invoiceId: nat)
    | CreateSubscription(subscriptionId: nat, customer: PubKey, amount: nat, interval: nat)
    | ProcessSubscription(subscriptionId: nat)
    | CancelSubscription(subscriptionId: nat)

  datatype MerchantRollback =
    | UndoCreate(invoiceId: nat)
    | UndoPaid(invoiceId: nat)
    | UndoAck(invoiceId: nat)
    | UndoCancel(invoiceId: nat)
    | UndoCreateSubscription(subscriptionId: nat)
    | UndoProcessSubscription(subscriptionId: nat, prevNextRun: nat)
    | UndoCancelSubscription(subscription: Subscription)

  datatype MerchantError =
    | Exists | NotFound | InvalidAmount | AlreadyPaid | AlreadyAcked | AlreadyCanceled | UnknownCustomer
    | InvalidScript | DuplicatePayment | SubscriptionExists | SubscriptionNotFound

  datatype InvoiceStatus = Open | Paid | Acked | Canceled

  datatype Invoice = Invoice(
    id: nat, amount: nat, memo: Option<string>, createdAt: nat, lastUpdate: nat,
    status: InvoiceStatus, payer: Option<PubKey>, carrierTx: Option<Hash>)

  datatype Subscription = Subscription(id: nat, customer: PubKey, amount: nat, interval: nat, nextRun: nat)

  datatype CustomerInfo = CustomerInfo(invoices: seq<nat>, subscriptions: seq<nat>)

  datatype Receipts = Receipts(
    merchantKeys: seq<PubKey>,
    invoices: map<nat, Invoice>,
    subscriptions: map<nat, Subscription>,
    customers: map<PubKey, CustomerInfo>,
    usedCarrierTxs: set<Hash>)

  type Outcome = Result<MerchantRollback, EpisodeError<MerchantError>>

  /** The ids other than `id`, in order. */
  function Without(ids: seq<nat>, id: nat): seq<nat> {
    if ids == [] then []
    else
      var last := |ids| - 1;
      if ids[last] == id then Without(ids[..last], id) else Without(ids[..last], id) + [ids[last]]
  }

  /** Standard P2PK script of a key: push of 33 bytes, the key, OP_CHECKSIG. */
  function ScriptOf(key: PubKey): seq<Byte> {
    [33] + key.serialized + [172]
  }

  predicate PaysMerchant(o: TxOutputInfo, keys: seq<PubKey>) {
    o.scriptBytes.Some? && exists key :: key in keys && o.scriptBytes.value == ScriptOf(key)
  }

  /** The carrier's outputs, when known, must cover the amount, and if the script of any covering
      output is known, one of them must pay the merchant. */
  function OutputsError(outputs: Option<seq<TxOutputInfo>>, amount: nat, keys: seq<PubKey>): Option<MerchantError> {
    match outputs
    case None => None
    case Some(outs) =>
      if (exists o :: o in outs && o.value >= amount && o.scriptBytes.Some?)
         && !(exists o :: o in outs && o.value >= amount && PaysMerchant(o, keys)) then Some(InvalidScript)
      else if !(exists o :: o in outs && o.value >= amount) then Some(InvalidAmount)
      else None
  }

  /** Who may issue invoices and subscriptions. */
  predicate IsMerchant(s: Receipts, auth: Option<PubKey>) {
    auth.Some? && auth.value in s.merchantKeys
  }

  function CheckCommand(s: Receipts, cmd: MerchantCommand, auth: Option<PubKey>, md: PayloadMetadata)
    : Option<EpisodeError<MerchantError>>
  {
    match cmd
    case CreateInvoice(id, amount, memo) =>
      if id in s.invoices then Some(InvalidCommand(Exists))
      else if amount == 0 then Some(InvalidCommand(InvalidAmount))
      else if !IsMerchant(s, auth) then Some(Unauthorized)
      else None
    case MarkPaid(id, payer) =>
      if auth != Some(payer) then Some(Unauthorized)
      else if md.txId in s.usedCarrierTxs then Some(InvalidCommand(DuplicatePayment))
      else if id !in s.invoices then Some(InvalidCommand(NotFound))
      else if s.invoices[id].status == Canceled then Some(InvalidCommand(AlreadyCanceled))
      else if s.invoices[id].status != Open then Some(InvalidCommand(AlreadyPaid))
      else if payer !in s.customers then Some(InvalidCommand(UnknownCustomer))
      else
        var error := OutputsError(md.txOutputs, s.invoices[id].amount, s.merchantKeys);
        if error.Some? then Some(InvalidCommand(error.value)) else None
    case AckReceipt(id) =>
      if id !in s.invoices then Some(InvalidCommand(NotFound))
      else if s.invoices[id].status == Canceled then Some(InvalidCommand(AlreadyCanceled))
      else if s.invoices[id].status == Acked then Some(InvalidCommand(AlreadyAcked))
      else if s.invoices[id].status != Paid then Some(InvalidCommand(NotFound))
      else None
    case CancelInvoice(id) =>
      if id !in s.invoices then Some(InvalidCommand(NotFound))
      else if s.invoices[id].status == Canceled then Some(InvalidCommand(AlreadyCanceled))
      else if s.invoices[id].status != Open then Some(InvalidCommand(AlreadyPaid))
      else None
    case CreateSubscription(id, customer, amount, interval) =>
      if id in s.subscriptions then Some(InvalidCommand(SubscriptionExists))
      else if amount == 0 || interval == 0 then Some(InvalidCommand(InvalidAmount))
      else if !IsMerchant(s, auth) then Some(Unauthorized)
      else if customer !in s.customers then Some(InvalidCommand(UnknownCustomer))
      else None
    case ProcessSubscription(id) =>
      if id !in s.subscriptions then Some(InvalidCommand(SubscriptionNotFound)) else None
    case CancelSubscription(id) =>
      if id !in s.subscriptions then Some(InvalidCommand(SubscriptionNotFound)) else None
  }

  /** Replaces one invoice, one subscription, one customer. */

  function WithInvoice(s: Receipts, inv: Invoice): Receipts {
    s.(invoices := s.invoices[inv.id := inv])
  }

  function SetStatus(s: Receipts, id: nat, status: InvoiceStatus, time: nat): Receipts
    requires id in s.invoices
  {
    s.(invoices := s.invoices[id := s.invoices[id].(status := status, lastUpdate := time)])
  }

  function Pay(s: Receipts, id: nat, payer: PubKey, md: PayloadMetadata): Receipts
    requires id in s.invoices && payer in s.customers
  {
    var inv := s.invoices[id].(status := Paid, lastUpdate := md.acceptingTime, payer := Some(payer),
                               carrierTx := Some(md.txId));
    var info := s.customers[payer];
    s.(invoices := s.invoices[id := inv],
       usedCarrierTxs := s.usedCarrierTxs + {md.txId},
       customers := s.customers[payer := if id in info.invoices then info else info.(invoices := info.invoices + [id])])
  }

  function Unpay(s: Receipts, id: nat): Receipts
    requires id in s.invoices
  {
    var inv := s.invoices[id];
    s.(invoices := s.invoices[id := inv.(status := Open, payer := None, carrierTx := None)],
       usedCarrierTxs := if inv.carrierTx.Some? then s.usedCarrierTxs - {inv.carrierTx.value} else s.usedCarrierTxs,
       customers :=
         if inv.payer.Some? && inv.payer.value in s.customers
         then var info := s.customers[inv.payer.value];
              s.customers[inv.payer.value := info.(invoices := Without(info.invoices, id))]
         else s.customers)
  }

  function Subscribe(s: Receipts, sub: Subscription): Receipts
    requires sub.customer in s.customers
  {
    var info := s.customers[sub.customer];
    s.(subscriptions := s.subscriptions[sub.id := sub],
       customers := s.customers[sub.customer := info.(subscriptions := info.subscriptions + [sub.id])])
  }

  function Unsubscribe(s: Receipts, id: nat): Receipts
    requires id in s.subscriptions
  {
    var c := s.subscriptions[id].customer;
    s.(subscriptions := s.subscriptions - {id},
       customers :=
         if c in s.customers
         then s.customers[c := s.customers[c].(subscriptions := Without(s.customers[c].subscriptions, id))]
         else s.customers)
  }

  function Resubscribe(s: Receipts, sub: Subscription): Receipts {
    if sub.customer in s.customers && sub.id !in s.customers[sub.customer].subscriptions then Subscribe(s, sub)
    else s.(subscriptions := s.subscriptions[sub.id := sub])
  }

  function SetNextRun(s: Receipts, id: nat, nextRun: nat): Receipts
    requires id in s.subscriptions
  {
    s.(subscriptions := s.subscriptions[id := s.subscriptions[id].(nextRun := nextRun)])
  }

  /** The effect of an accepted command, and its rollback object. */
  function Apply(s: Receipts, cmd: MerchantCommand, auth: Option<PubKey>, md: PayloadMetadata)
    : (Receipts, MerchantRollback)
    requires CheckCommand(s, cmd, auth, md).None?
  {
    match cmd
    case CreateInvoice(id, amount, memo) =>
      (WithInvoice(s, Invoice(id, amount, memo, md.acceptingTime, md.acceptingTime, Open, None, None)), UndoCreate(id))
    case MarkPaid(id, payer) => (Pay(s, id, payer, md), UndoPaid(id))
    case AckReceipt(id) => (SetStatus(s, id, Acked, md.acceptingTime), UndoAck(id))
    case CancelInvoice(id) => (SetStatus(s, id, Canceled, md.acceptingTime), UndoCancel(id))
    case CreateSubscription(id, customer, amount, interval) =>
      (Subscribe(s, Subscription(id, customer, amount, interval, md.acceptingTime + interval)),
       UndoCreateSubscription(id))
    case ProcessSubscription(id) =>
      var sub := s.subscriptions[id];
      (SetNextRun(s, id, md.acceptingTime + sub.interval), UndoProcessSubscription(id, sub.nextRun))
    case CancelSubscription(id) => (Unsubscribe(s, id), UndoCancelSubscription(s.subscriptions[id]))
  }

  function Execute(s: Receipts, cmd: MerchantCommand, auth: Option<PubKey>, md: PayloadMetadata): (Receipts, Outcome) {
    var error := CheckCommand(s, cmd, auth, md);
    if error.Some? then (s, Err(error.value))
    else
      var (s', rollback) := Apply(s, cmd, auth, md);
      (s', Ok(rollback))
  }

  /** Rollback of an invoice's status leaves its `lastUpdate` as the command set it. */
  function ResetStatus(s: Receipts, id: nat, status: InvoiceStatus): (Receipts, bool) {
    if id in s.invoices then (s.(invoices := s.invoices[id := s.invoices[id].(status := status)]), true) else (s, false)
  }

  function Rollback(s: Receipts, r: MerchantRollback): (Receipts, bool) {
    match r
    case UndoCreate(id) => (s.(invoices := s.invoices - {id}), id in s.invoices)
    case UndoPaid(id) => if id in s.invoices then (Unpay(s, id), true) else (s, false)
    case UndoAck(id) => ResetStatus(s, id, Paid)
    case UndoCancel(id) => ResetStatus(s, id, Open)
    case UndoCreateSubscription(id) => if id in s.subscriptions then (Unsubscribe(s, id), true) else (s, false)
    case UndoProcessSubscription(id, prev) =>
      if id in s.subscriptions then (SetNextRun(s, id, prev), true) else (s, false)
    case UndoCancelSubscription(sub) => (Resubscribe(s, sub), true)
  }

  /** The three persistent tables. */
  datatype Tables = Tables(
    invoices: map<nat, Invoice>, subscriptions: map<nat, Subscription>, customers: map<PubKey, CustomerInfo>)

  function Carriers(invoices: map<nat, Invoice>): set<Hash> {
    set id | id in invoices && invoices[id].carrierTx.Some? :: invoices[id].carrierTx.value
  }

  /** Start-up: the tables are loaded and the used carriers recomputed. */
  function Load(keys: seq<PubKey>, tables: Tables): Receipts {
    Receipts(keys, tables.invoices, tables.subscriptions, tables.customers, Carriers(tables.invoices))
  }

  function TablesOf(s: Receipts): Tables {
    Tables(s.invoices, s.subscriptions, s.customers)
  }

  /** What an accepted command writes to the tables, record by record: the tables may hold what
      others wrote. `s` is the merchant before the command. */
  function StoreCommand(tables: Tables, s: Receipts, cmd: MerchantCommand, auth: Option<PubKey>, md: PayloadMetadata)
    : Tables
    requires CheckCommand(s, cmd, auth, md).None?
  {
    var s' := Apply(s, cmd, auth, md).0;
    match cmd
    case CreateInvoice(id, _, _) => PutInvoiceIn(tables, s'.invoices[id])
    case MarkPaid(id, payer) => PutCustomerIn(PutInvoiceIn(tables, s'.invoices[id]), payer, s'.customers[payer])
    case AckReceipt(id) => PutInvoiceIn(tables, s'.invoices[id])
    case CancelInvoice(id) => PutInvoiceIn(tables, s'.invoices[id])
    case CreateSubscription(id, customer, _, _) =>
      PutSubscriptionIn(PutCustomerIn(tables, customer, s'.customers[customer]), s'.subscriptions[id])
    case ProcessSubscription(id) => PutSubscriptionIn(tables, s'.subscriptions[id])
    case CancelSubscription(id) =>
      var customer := s.subscriptions[id].customer;
      var written :=
        if customer in s.customers then PutCustomerIn(tables, customer, s'.customers[customer]) else tables;
      written.(subscriptions := written.subscriptions - {id})
  }

  /** What a rollback writes. */
  function StoreRollback(tables: Tables, s: Receipts, r: MerchantRollback): Tables {
    var s' := Rollback(s, r).0;
    match r
    case UndoCreate(id) => tables.(invoices := tables.invoices - {id})
    case UndoPaid(id) =>
      if id !in s.invoices then tables
      else
        var payer := s.invoices[id].payer;
        PutInvoiceIn(if payer.Some? && payer.value in s.customers
                     then PutCustomerIn(tables, payer.value, s'.customers[payer.value]) else tables, s'.invoices[id])
    case UndoAck(id) => if id in s.invoices then PutInvoiceIn(tables, s'.invoices[id]) else tables
    case UndoCancel(id) => if id in s.invoices then PutInvoiceIn(tables, s'.invoices[id]) else tables
    case UndoCreateSubscription(id) =>
      var gone := tables.(subscriptions := tables.subscriptions - {id});
      if id in s.subscriptions && s.subscriptions[id].customer in s.customers
      then PutCustomerIn(gone, s.subscriptions[id].customer, s'.customers[s.subscriptions[id].customer])
      else gone
    case UndoProcessSubscription(id, _) =>
      if id in s.subscriptions then PutSubscriptionIn(tables, s'.subscriptions[id]) else tables
    case UndoCancelSubscription(sub) =>
      var written := PutSubscriptionIn(tables, sub);
      if sub.customer in s.customers && sub.id !in s.customers[sub.customer].subscriptions
      then PutCustomerIn(written, sub.customer, s'.customers[sub.customer])
      else written
  }

  function PutInvoiceIn(tables: Tables, inv: Invoice): Tables {
    tables.(invoices := tables.invoices[inv.id := inv])
  }

  function PutCustomerIn(tables: Tables, c: PubKey, info: CustomerInfo): Tables {
    tables.(customers := tables.customers[c := info])
  }

  function PutSubscriptionIn(tables: Tables, sub: Subscription): Tables {
    tables.(subscriptions := tables.subscriptions[sub.id := sub])
  }

  /** What a command writes, if it is accepted. */
  function Stored(tables: Tables, s: Receipts, cmd: MerchantCommand, auth: Option<PubKey>, md: PayloadMetadata)
    : Tables
  {
    if CheckCommand(s, cmd, auth, md).None? then StoreCommand(tables, s, cmd, auth, md) else tables
  }
}

/** The persistent tables (kdapp-merchant/src/storage.rs), as the maps their readers see. */
module MerchantStorage {
  import opened Primitives
  import opened Merchant

  class Storage {
    var invoices: map<nat, Invoice>
    var subscriptions: map<nat, Subscription>
    var customers: map<PubKey, CustomerInfo>

    ghost function View(): Tables
      reads this
    {
      Tables(invoices, subscriptions, customers)
    }

    constructor ()
      ensures View() == Tables(map[], map[], map[])
    {
      invoices, subscriptions, customers := map[], map[], map[];
    }

    method PutInvoice(inv: Invoice)
      modifies this
      ensures View() == old(View()).(invoices := old(invoices)[inv.id := inv])
    {
      invoices := invoices[inv.id := inv];
    }

    method DeleteInvoice(id: nat)
      modifies this
      ensures View() == old(View()).(invoices := old(invoices) - {id})
    {
      invoices := invoices - {id};
    }

    method PutCustomer(pk: PubKey, info: CustomerInfo)
      modifies this
      ensures View() == old(View()).(customers := old(customers)[pk := info])
    {
      customers := customers[pk := info];
    }

    method PutSubscription(sub: Subscription)
      modifies this
      ensures View() == old(View()).(subscriptions := old(subscriptions)[sub.id := sub])
    {
      subscriptions := subscriptions[sub.id := sub];
    }

    method DeleteSubscription(id: nat)
      modifies this
      ensures View() == old(View()).(subscriptions := old(subscriptions) - {id})
    {
      subscriptions := subscriptions - {id};
    }
  }
}

/**
 * The two write paths together. Each method below drives the handlers the
 * way the processor and the browser do, with no other writer in between,
 * and states what the dedup lookup buys: one order per payment.
 */
module Reconciliation {
  import opened Wrappers
  import opened Bag
  import opened Orders
  import opened Stripe
  import opened Webhook
  import opened Views

  /** What the five lookups see when nothing else writes to the table meanwhile. */
  function Unchanging(table: OrderTable): (attemptTables: seq<OrderTable>)
    ensures |attemptTables| == MaxAttempts
    ensures forall i :: 0 <= i < |attemptTables| ==> attemptTables[i] == table
  {
    [table, table, table, table, table]
  }

  /** A table nobody writes to between lookups: a lookup there ends on its first attempt or runs all five. */
  lemma FirstLookupDecides(table: OrderTable, wanted: Order, lookups: nat)
    requires 1 <= lookups <= MaxAttempts
    requires forall i :: 0 <= i < lookups - 1 ==> Lookup(Unchanging(table)[i], wanted) == NotFound
    ensures Lookup(table, wanted) != NotFound ==> lookups == 1
  {
    if lookups > 1 {
      assert Lookup(Unchanging(table)[0], wanted) == NotFound;
    }
  }

  /**
   * One delivery against a table that holds no match and that nobody else
   * writes to: all five lookups miss, then the handler either creates the
   * one order for the payment, which the next lookup finds, or fails and
   * leaves the table as it was.
   */
  method DeliverWhenAbsent(
    store: Store, catalog: set<ProductId>, event: Event, savedTotal: int,
    insertFails: bool, saveFailsAt: Option<nat>)
    returns (r: WebhookResult, lookups: nat)
    requires store.Valid()
    requires AddressComplete(event.intent) && ReachesLookup(event.intent)
    requires Lookup(store.orders, Fingerprint(event.intent)) == NotFound
    requires savedTotal == event.intent.amount
    modifies store
    ensures store.Valid()
    ensures lookups == MaxAttempts
    ensures r == CreatedInWebhook <==> !insertFails && Creatable(event.intent.metadata.bag.value, catalog, saveFailsAt)
    ensures r != CreatedInWebhook ==> r == CreateFailed && store.orders == old(store.orders)
    ensures r == CreatedInWebhook ==>
      && Lookup(store.orders, Fingerprint(event.intent)) == Found
      && exists num: OrderNumber ::
           && num !in old(store.orders)
           && store.orders == old(store.orders)[num := StoredOrder(
                Fingerprint(event.intent), Expand(Loads(event.intent.metadata.bag.value).value))]
  {
    var fingerprint := Fingerprint(event.intent);
    assert fingerprint.(grandTotal := savedTotal) == fingerprint;
    r, lookups := HandlePaymentIntentSucceeded(
      store, catalog, event, Unchanging(store.orders), insertFails, saveFailsAt, savedTotal);
    if r == CreatedInWebhook {
      ghost var num: OrderNumber :| num !in old(store.orders) && store.orders == old(store.orders)[num := StoredOrder(
        fingerprint, Expand(Loads(event.intent.metadata.bag.value).value))];
      MatchesItself(fingerprint);
      InsertMakesUniqueMatch(old(store.orders), num, store.orders[num], fingerprint);
    }
  }

  /**
   * One delivery against a table that holds exactly one match and that
   * nobody else writes to: the first lookup finds it and nothing is written.
   */
  method DeliverWhenPresent(
    store: Store, catalog: set<ProductId>, event: Event, savedTotal: int,
    insertFails: bool, saveFailsAt: Option<nat>)
    returns (r: WebhookResult, lookups: nat)
    requires store.Valid()
    requires AddressComplete(event.intent) && ReachesLookup(event.intent)
    requires Lookup(store.orders, Fingerprint(event.intent)) == Found
    modifies store
    ensures store.Valid()
    ensures r == AlreadyInDatabase && lookups == 1
    ensures store.orders == old(store.orders)
  {
    r, lookups := HandlePaymentIntentSucceeded(
      store, catalog, event, Unchanging(store.orders), insertFails, saveFailsAt, savedTotal);
    FirstLookupDecides(old(store.orders), Fingerprint(event.intent), lookups);
  }

  /**
   * The processor delivers the same `payment_intent.succeeded` event twice
   * and no order for it exists yet; `insertFails`/`saveFailsAt` are the
   * database's answers to each delivery. If the first delivery created the
   * order, the second finds it on its first lookup and creates nothing; if
   * the first failed, it left the table as it was and the second starts
   * over. Either way the table ends with at most one order for the payment,
   * holding the event's contact, amount, bag text and intent id and the
   * bag's line items. This needs the grand total models.py saves to equal
   * the intent's amount.
   */
  method RedeliveryIsIdempotent(
    store: Store, catalog: set<ProductId>, event: Event, savedTotal: int,
    insertFails: bool, saveFailsAt: Option<nat>, insertFailsAgain: bool, saveFailsAtAgain: Option<nat>)
    returns (first: WebhookResult, firstLookups: nat, second: WebhookResult, secondLookups: nat)
    requires store.Valid()
    requires AddressComplete(event.intent) && ReachesLookup(event.intent)
    requires Lookup(store.orders, Fingerprint(event.intent)) == NotFound
    requires savedTotal == event.intent.amount
    modifies store
    ensures store.Valid()
    ensures firstLookups == MaxAttempts
    ensures first == CreatedInWebhook <==> !insertFails && Creatable(event.intent.metadata.bag.value, catalog, saveFailsAt)
    ensures first != CreatedInWebhook ==> first == CreateFailed
    ensures first == CreatedInWebhook ==> second == AlreadyInDatabase && secondLookups == 1
    ensures first == CreateFailed ==>
      && secondLookups == MaxAttempts
      && (second == CreatedInWebhook <==>
            !insertFailsAgain && Creatable(event.intent.metadata.bag.value, catalog, saveFailsAtAgain))
      && (second != CreatedInWebhook ==> second == CreateFailed)
    ensures first == CreatedInWebhook || second == CreatedInWebhook ==>
      && Lookup(store.orders, Fingerprint(event.intent)) == Found
      && exists num: OrderNumber ::
           && num !in old(store.orders)
           && store.orders == old(store.orders)[num := StoredOrder(
                Fingerprint(event.intent), Expand(Loads(event.intent.metadata.bag.value).value))]
    ensures first == CreateFailed && second == CreateFailed ==> store.orders == old(store.orders)
  {
    first, firstLookups := DeliverWhenAbsent(store, catalog, event, savedTotal, insertFails, saveFailsAt);
    if first == CreatedInWebhook {
      second, secondLookups := DeliverWhenPresent(store, catalog, event, savedTotal, insertFailsAgain, saveFailsAtAgain);
    } else {
      second, secondLookups := DeliverWhenAbsent(store, catalog, event, savedTotal, insertFailsAgain, saveFailsAtAgain);
    }
  }

  /**
   * One delivery, with no match in the table, when the grand total models.py
   * saves is not the intent's amount. The webhook creates its order without
   * a grand total of its own but looks orders up by the amount, so the order
   * it creates does not meet its own criteria: the table still holds no match.
   */
  method DeliverWhenTotalDiffers(
    store: Store, catalog: set<ProductId>, event: Event, savedTotal: int, saveFailsAt: Option<nat>)
    returns (r: WebhookResult)
    requires store.Valid()
    requires AddressComplete(event.intent) && ReachesLookup(event.intent)
    requires Lookup(store.orders, Fingerprint(event.intent)) == NotFound
    requires savedTotal != event.intent.amount
    requires Creatable(event.intent.metadata.bag.value, catalog, saveFailsAt)
    modifies store
    ensures store.Valid()
    ensures r == CreatedInWebhook
    ensures Lookup(store.orders, Fingerprint(event.intent)) == NotFound
    ensures exists num: OrderNumber ::
      && num !in old(store.orders)
      && store.orders == old(store.orders)[num := StoredOrder(
           Fingerprint(event.intent).(grandTotal := savedTotal), Expand(Loads(event.intent.metadata.bag.value).value))]
  {
    var fingerprint := Fingerprint(event.intent);
    ghost var entry := StoredOrder(fingerprint.(grandTotal := savedTotal), Expand(Loads(event.intent.metadata.bag.value).value));
    assert !Matches(entry.order, fingerprint);
    var lookups;
    r, lookups := HandlePaymentIntentSucceeded(
      store, catalog, event, Unchanging(store.orders), false, saveFailsAt, savedTotal);
    ghost var num: OrderNumber :| num !in old(store.orders) && store.orders == old(store.orders)[num := entry];
  }

  /**
   * Two deliveries of the same event when the saved grand total is not the
   * intent's amount: each creates another order for the one payment, and
   * the table still holds none the lookup would find.
   */
  method RedeliveryDuplicatesWhenTotalsDiffer(
    store: Store, catalog: set<ProductId>, event: Event, savedTotal: int, saveFailsAt: Option<nat>)
    returns (first: WebhookResult, second: WebhookResult)
    requires store.Valid()
    requires AddressComplete(event.intent) && ReachesLookup(event.intent)
    requires Lookup(store.orders, Fingerprint(event.intent)) == NotFound
    requires savedTotal != event.intent.amount
    requires Creatable(event.intent.metadata.bag.value, catalog, saveFailsAt)
    modifies store
    ensures store.Valid()
    ensures first == CreatedInWebhook && second == CreatedInWebhook
    ensures Lookup(store.orders, Fingerprint(event.intent)) == NotFound
    ensures exists one: OrderNumber, other: OrderNumber ::
      && one != other && one !in old(store.orders) && other !in old(store.orders)
      && store.orders == old(store.orders)[one := StoredOrder(
           Fingerprint(event.intent).(grandTotal := savedTotal), Expand(Loads(event.intent.metadata.bag.value).value))][
           other := StoredOrder(
           Fingerprint(event.intent).(grandTotal := savedTotal), Expand(Loads(event.intent.metadata.bag.value).value))]
  {
    ghost var entry := StoredOrder(
      Fingerprint(event.intent).(grandTotal := savedTotal), Expand(Loads(event.intent.metadata.bag.value).value));
    first := DeliverWhenTotalDiffers(store, catalog, event, savedTotal, saveFailsAt);
    ghost var one: OrderNumber :| one !in old(store.orders) && store.orders == old(store.orders)[one := entry];
    ghost var between := store.orders;
    second := DeliverWhenTotalDiffers(store, catalog, event, savedTotal, saveFailsAt);
    ghost var other: OrderNumber :| other !in between && store.orders == between[other := entry];
    assert one != other && other !in old(store.orders);
  }

  /**
   * The browser flow runs first: `cache_checkout_data` puts the session's
   * bag and the email on the intent, then the checkout POST tries to save
   * the order (`checkoutInsertFails`/`checkoutSaveFailsAt` are the
   * database's answers). The checkout succeeds exactly when the order and
   * all its line items are saved. When it did and the webhook for that
   * intent arrives, with shipping details that agree (up to letter case)
   * with the form and an amount equal to the saved grand total, its first
   * lookup finds the checkout's order and the table holds that one order.
   */
  method WebhookFindsCheckoutOrder(
    store: Store, session: Session, catalog: set<ProductId>,
    form: Contact, clientSecret: string, saveInfoTicked: bool, bagTotal: Decimal, savedTotal: int,
    cachePost: CachePost, username: string, event: Event,
    checkoutInsertFails: bool, checkoutSaveFailsAt: Option<nat>,
    webhookInsertFails: bool, webhookSaveFailsAt: Option<nat>)
    returns (page: CheckoutResult, reply: WebhookResult, lookups: nat)
    requires store.Valid()
    requires cachePost.clientSecret == Some(clientSecret)
    requires CacheCheckoutData(cachePost, session, username, true) == Cached(event.intent.id, event.intent.metadata)
    requires AddressComplete(event.intent) && ReachesLookup(event.intent)
    requires ContactMatches(form, ShippingContact(event.intent.shipping.value, cachePost.email.GetOr("")))
    requires savedTotal == event.intent.amount
    requires Lookup(store.orders, Fingerprint(event.intent)) == NotFound
    modifies store, session
    ensures store.Valid()
    ensures page.RedirectSuccess? <==>
      !checkoutInsertFails && LoopOutcome(SessionBag(old(session.data)), catalog, checkoutSaveFailsAt) == AllSaved
    ensures page.RedirectSuccess? ==>
      && page.orderNumber !in old(store.orders)
      && reply == AlreadyInDatabase
      && lookups == 1
      && store.orders == old(store.orders)[page.orderNumber := StoredOrder(
           Order(form, savedTotal, Dumps(SessionBag(old(session.data))), event.intent.id),
           Expand(SessionBag(old(session.data))))]
  {
    var fingerprint := Fingerprint(event.intent);
    ghost var bag := SessionBag(session.data);
    assert event.intent.metadata.bag == Some(Dumps(bag));
    page := Checkout(Post(form, Some(clientSecret), saveInfoTicked), session, store, catalog,
                     true, bagTotal, savedTotal, checkoutInsertFails, checkoutSaveFailsAt);
    if page.RedirectSuccess? {
      ghost var entry := store.orders[page.orderNumber];
      assert entry.order == Order(form, savedTotal, Dumps(bag), ClientPid(Some(clientSecret)));
      assert Matches(entry.order, fingerprint);
      InsertMakesUniqueMatch(old(store.orders), page.orderNumber, entry, fingerprint);
    }
    if page.RedirectSuccess? {
      reply, lookups := DeliverWhenPresent(store, catalog, event, savedTotal, webhookInsertFails, webhookSaveFailsAt);
    } else {
      reply, lookups := HandlePaymentIntentSucceeded(
        store, catalog, event, Unchanging(store.orders), webhookInsertFails, webhookSaveFailsAt, savedTotal);
    }
  }
}

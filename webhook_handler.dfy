/**
 * The webhook reconciler: the handler the payment processor's
 * `payment_intent.succeeded` event reaches, with its two companion
 * handlers that only acknowledge.
 *
 * The handler looks for an order the synchronous checkout may already have
 * written, up to five times, and creates the order itself when none turns
 * up. The synchronous writer may commit between two lookups, so the model
 * does not run the lookups against one fixed table: `attemptTables[i]` is the order
 * table as attempt `i + 1` sees it, and `store` is the table the handler
 * then writes to. The one-second sleeps between attempts are not modelled.
 */
module Webhook {
  import opened Wrappers
  import opened Bag
  import opened Orders
  import opened Stripe

  const MaxAttempts: nat := 5

  /** Exceptions that leave the handler uncaught. */
  datatype HandlerError =
    | MissingMetadataKey         // `intent.metadata.bag` / `.save_info` absent
    | MultipleObjectsReturned    // the lookup met more than one order

  datatype WebhookResult =
    | Unhandled(eventType: string)   // "Unhandled Webhook received"
    | Received                       // payment_intent.payment_failed
    | MissingShipping                // "ERROR: No shipping details"
    | AlreadyInDatabase              // "SUCCESS: Verified order already in database"
    | CreatedInWebhook               // "SUCCESS: Created order in webhook"
    | CreateFailed                   // "ERROR: ..." after the rollback
    | Raised(error: HandlerError)    // the exception reaches Django

  /**
   * The HTTP status of each outcome. An exception raised out of the handler
   * is answered by Django with 500.
   */
  function Status(r: WebhookResult): (code: int)
    ensures code == 400 <==> r == MissingShipping
    ensures code == 500 <==> r == CreateFailed || r.Raised?
    ensures code == 200 <==> !(r == MissingShipping || r == CreateFailed || r.Raised?)
  {
    match r
    case MissingShipping => 400
    case CreateFailed => 500
    case Raised(_) => 500
    case _ => 200
  }

  /** Any event type without a handler of its own is acknowledged with 200. */
  function HandleEvent(event: Event): (r: WebhookResult)
    ensures Status(r) == 200
    ensures r == Unhandled(event.eventType)
  {
    Unhandled(event.eventType)
  }

  /** A failed payment is acknowledged with 200; no order is touched. */
  function HandlePaymentIntentFailed(event: Event): (r: WebhookResult)
    ensures Status(r) == 200
  {
    Received
  }

  // ---------------------------------------------------------------------
  // Address clean-up
  // ---------------------------------------------------------------------

  function NoneIfEmpty(v: Option<string>): Option<string> {
    if v == Some("") then None else v
  }

  /**
   * The address with every `""` value replaced by `None`: same keys, no
   * empty string left, every other value as it was.
   */
  function Cleaned(address: map<string, Option<string>>): (cleaned: map<string, Option<string>>)
    ensures cleaned.Keys == address.Keys
    ensures forall f :: f in cleaned ==> cleaned[f] != Some("")
    ensures forall f :: f in address && address[f] != Some("") ==> cleaned[f] == address[f]
    ensures forall f :: f in address && address[f] == Some("") ==> cleaned[f] == None
  {
    map f | f in address :: NoneIfEmpty(address[f])
  }

  /** The clean-up loop over `shipping_details.address.items()`. */
  method CleanAddress(address: map<string, Option<string>>) returns (cleaned: map<string, Option<string>>)
    ensures cleaned == Cleaned(address)
  {
    cleaned := address;
    var todo := address.Keys;
    while todo != {}
      invariant todo <= address.Keys
      invariant cleaned.Keys == address.Keys
      invariant forall f :: f in cleaned ==>
        cleaned[f] == if f in todo then address[f] else NoneIfEmpty(address[f])
      decreases todo
    {
      var f :| f in todo;
      if cleaned[f] == Some("") {
        cleaned := cleaned[f := None];
      }
      todo := todo - {f};
    }
  }

  // ---------------------------------------------------------------------
  // The lookup criteria
  // ---------------------------------------------------------------------

  /** The shipping details carry the whole address object. */
  predicate AddressComplete(intent: Intent) {
    intent.shipping.Some? ==> AddressKeys <= intent.shipping.value.address.Keys
  }

  /** The handler gets past its metadata reads and its shipping check. */
  predicate ReachesLookup(intent: Intent) {
    intent.metadata.bag.Some? && intent.metadata.saveInfo.Some? && intent.shipping.Some?
  }

  /** The order field each key of the processor's address object is saved in. */
  function AddressField(c: Contact, key: string): Option<string>
    requires key in AddressKeys
  {
    if key == "country" then c.country
    else if key == "postal_code" then c.postcode
    else if key == "city" then c.townOrCity
    else if key == "line1" then c.streetAddress1
    else if key == "line2" then c.streetAddress2
    else c.county
  }

  /**
   * The contact fields the webhook looks up and creates with: name and phone
   * from shipping, the email from metadata, each address key in its own
   * field with `""` turned into `None`.
   */
  function ShippingContact(shipping: Shipping, email: string): (c: Contact)
    requires AddressKeys <= shipping.address.Keys
    ensures c.fullName == shipping.name && c.phoneNumber == shipping.phone && c.email == Some(email)
    ensures forall key :: key in AddressKeys ==> AddressField(c, key) != Some("")
    ensures forall key :: key in AddressKeys && shipping.address[key] != Some("") ==>
      AddressField(c, key) == shipping.address[key]
    ensures forall key :: key in AddressKeys && shipping.address[key] == Some("") ==>
      AddressField(c, key) == None
  {
    var a := Cleaned(shipping.address);
    Contact(shipping.name, Some(email), shipping.phone, a["country"], a["postal_code"],
            a["city"], a["line1"], a["line2"], a["state"])
  }

  /**
   * The twelve lookup criteria of an event: the contact fields, the amount
   * (in minor units: `round(amount / 100, 2)` in major units), the bag
   * snapshot text and the intent id. The email is `""` when the metadata
   * has none.
   */
  function Fingerprint(intent: Intent): (o: Order)
    requires ReachesLookup(intent) && AddressComplete(intent)
    ensures o.contact == ShippingContact(intent.shipping.value, intent.metadata.email.GetOr(""))
    ensures o.contact.email == Some(if intent.metadata.email.Some? then intent.metadata.email.value else "")
    ensures o.grandTotal == intent.amount
    ensures o.originalBag == intent.metadata.bag.value
    ensures o.stripePid == intent.id
  {
    Order(ShippingContact(intent.shipping.value, intent.metadata.email.GetOr("")),
          intent.amount, intent.metadata.bag.value, intent.id)
  }

  /**
   * The snapshot reads back as a bag whose every product is in the catalog
   * and whose every line item the database accepts.
   */
  predicate Creatable(snapshot: Snapshot, catalog: set<ProductId>, saveFailsAt: Option<nat>) {
    Loads(snapshot).Some? && LoopOutcome(Loads(snapshot).value, catalog, saveFailsAt) == AllSaved
  }

  // ---------------------------------------------------------------------
  // The bounded retry
  // ---------------------------------------------------------------------

  /**
   * Up to five lookups; the first that does not report `DoesNotExist` ends
   * the loop (a match, or `MultipleObjectsReturned` leaving it as an
   * exception). `lookups` is how many were made.
   */
  method FindWithRetry(attemptTables: seq<OrderTable>, wanted: Order) returns (found: LookupResult, lookups: nat)
    requires |attemptTables| == MaxAttempts
    ensures 1 <= lookups <= MaxAttempts
    ensures forall i :: 0 <= i < lookups - 1 ==> Lookup(attemptTables[i], wanted) == NotFound
    ensures found == Lookup(attemptTables[lookups - 1], wanted)
    ensures found == NotFound ==> lookups == MaxAttempts
  {
    found, lookups := NotFound, 0;
    var attempt := 1;
    while attempt <= MaxAttempts
      invariant 1 <= attempt <= MaxAttempts + 1
      invariant lookups == attempt - 1
      invariant found == NotFound
      invariant forall i :: 0 <= i < lookups ==> Lookup(attemptTables[i], wanted) == NotFound
    {
      lookups := lookups + 1;
      found := Lookup(attemptTables[attempt - 1], wanted);
      if found != NotFound {
        break;
      }
      attempt := attempt + 1;
    }
  }

  // ---------------------------------------------------------------------
  // payment_intent.succeeded
  // ---------------------------------------------------------------------

  /**
   * `insertFails` says whether the database rejects `Order.objects.create`
   * (the constraints live in models.py, not part of this model); `savedTotal`
   * is the grand total models.py gives the new order; `saveFailsAt` is the
   * position, in saving order, of the first line item the database refuses.
   */
  method HandlePaymentIntentSucceeded(
    store: Store, catalog: set<ProductId>, event: Event, attemptTables: seq<OrderTable>,
    insertFails: bool, saveFailsAt: Option<nat>, savedTotal: int)
    returns (r: WebhookResult, lookups: nat)
    requires store.Valid()
    requires |attemptTables| == MaxAttempts
    requires AddressComplete(event.intent)
    modifies store
    ensures store.Valid()
    ensures lookups <= MaxAttempts
    ensures event.intent.metadata.bag.None? || event.intent.metadata.saveInfo.None? ==>
      r == Raised(MissingMetadataKey)
    ensures event.intent.metadata.bag.Some? && event.intent.metadata.saveInfo.Some? && event.intent.shipping.None? ==>
      r == MissingShipping
    ensures !ReachesLookup(event.intent) ==> lookups == 0
    ensures ReachesLookup(event.intent) ==> 1 <= lookups
    ensures ReachesLookup(event.intent) ==>
      var wanted := Fingerprint(event.intent);
      var last := Lookup(attemptTables[lookups - 1], wanted);
      && (forall i :: 0 <= i < lookups - 1 ==> Lookup(attemptTables[i], wanted) == NotFound)
      && (last == NotFound ==> lookups == MaxAttempts)
      && (last == Found ==> r == AlreadyInDatabase)
      && (last == MultipleFound ==> r == Raised(MultipleObjectsReturned))
      && (last == NotFound ==>
            r == if !insertFails && Creatable(event.intent.metadata.bag.value, catalog, saveFailsAt)
                 then CreatedInWebhook else CreateFailed)
    ensures r != CreatedInWebhook ==> store.orders == old(store.orders)
    ensures r == CreatedInWebhook ==>
      && ReachesLookup(event.intent)
      && exists num: OrderNumber :: num !in old(store.orders) && store.orders == old(store.orders)[num := StoredOrder(
           Fingerprint(event.intent).(grandTotal := savedTotal),
           Expand(Loads(event.intent.metadata.bag.value).value))]
  {
    var intent := event.intent;
    var pid := intent.id;
    lookups := 0;
    if intent.metadata.bag.None? || intent.metadata.saveInfo.None? {
      r := Raised(MissingMetadataKey);
      return;
    }
    var bag := intent.metadata.bag.value;
    var email := intent.metadata.email.GetOr("");

    if intent.shipping.None? {
      r := MissingShipping;
      return;
    }
    var shipping := intent.shipping.value;
    var grandTotal := intent.amount;
    var address := CleanAddress(shipping.address);
    var contact := Contact(shipping.name, Some(email), shipping.phone, address["country"],
                           address["postal_code"], address["city"], address["line1"],
                           address["line2"], address["state"]);
    var wanted := Order(contact, grandTotal, bag, pid);
    assert wanted == Fingerprint(intent);

    var found;
    found, lookups := FindWithRetry(attemptTables, wanted);
    if found == Found {
      r := AlreadyInDatabase;
      return;
    }
    if found == MultipleFound {
      r := Raised(MultipleObjectsReturned);
      return;
    }

    var created := CreateFromWebhook(store, Order(contact, savedTotal, bag, pid), catalog, insertFails, saveFailsAt);
    r := if created then CreatedInWebhook else CreateFailed;
  }

  /**
   * The `try` block that creates the order and its line items, with its
   * `except`: if any step raises, the order is deleted again (taking the
   * items saved so far with it) and the table is as it was.
   */
  method CreateFromWebhook(
    store: Store, order: Order, catalog: set<ProductId>, insertFails: bool, saveFailsAt: Option<nat>)
    returns (created: bool)
    requires store.Valid()
    modifies store
    ensures store.Valid()
    ensures created <==> !insertFails && Creatable(order.originalBag, catalog, saveFailsAt)
    ensures !created ==> store.orders == old(store.orders)
    ensures created ==> exists num: OrderNumber ::
      && num !in old(store.orders)
      && store.orders == old(store.orders)[num := StoredOrder(order, Expand(Loads(order.originalBag).value))]
  {
    if insertFails {
      return false;
    }
    var num := store.Create(order);
    var decoded := Loads(order.originalBag);
    if decoded.None? {
      store.Delete(num);
      assert old(store.orders)[num := StoredOrder(order, [])] - {num} == old(store.orders);
      assert !Creatable(order.originalBag, catalog, saveFailsAt);
      return false;
    }
    created := SaveItemsOrRollback(store, num, decoded.value, catalog, saveFailsAt);
    if !created {
      assert old(store.orders)[num := StoredOrder(order, [])] - {num} == old(store.orders);
      return;
    }
    assert [] + Expand(decoded.value) == Expand(decoded.value);
  }

  /**
   * The line-item loop of the `try` block for the order just created under
   * `num`, and the `except` that deletes that order when the loop raises.
   */
  method SaveItemsOrRollback(store: Store, num: OrderNumber, bag: Bag, catalog: set<ProductId>, saveFailsAt: Option<nat>)
    returns (saved: bool)
    requires store.Valid() && num in store.orders
    modifies store
    ensures store.Valid()
    ensures saved <==> LoopOutcome(bag, catalog, saveFailsAt) == AllSaved
    ensures !saved ==> store.orders == old(store.orders) - {num}
    ensures saved ==> store.orders == old(store.orders)[num := old(store.orders)[num].(
      lineItems := old(store.orders)[num].lineItems + Expand(bag))]
  {
    var outcome := CreateLineItems(store, num, bag, catalog, saveFailsAt);
    if outcome != AllSaved {
      ghost var withItems := store.orders;
      store.Delete(num);
      assert withItems - {num} == old(store.orders) - {num};
      return false;
    }
    ItemsSavedIsPrefix(bag, catalog, saveFailsAt);
    saved := true;
  }
}

# Order reconciliation in the Boutique Ado checkout

This Dafny project models how the shop's checkout app records an order. Two
paths can write the same order:

- **Synchronous checkout** (`checkout/views.py`). A GET refuses an empty bag
  and prices a payment intent. `cache_checkout_data` attaches the session's
  bag, the save-info choice, the user and the email to that intent as
  metadata. The POST saves an `Order` whose `stripe_pid` comes from the
  client secret and whose `original_bag` is the session bag as JSON. It then
  saves one line item per bag entry, or one per size for sized products. If
  a product is missing, it deletes the order again. `checkout_success` shows
  the order and drops the bag from the session.
- **Stripe webhook** (`checkout/webhook_handler.py`). For
  `payment_intent.succeeded`, the handler:
  - reads the bag and the save-info flag from the intent's metadata;
  - requires shipping details;
  - turns empty address fields into `None`;
  - looks for the order up to five times. The lookup matches nine contact
    fields case-insensitively, and the grand total, bag text and intent id
    exactly.
  - creates the order and its line items only when no match turns up, and
    deletes the order again if anything fails.

  Other events are only acknowledged.

The model keeps the orders table as a `Store` object. The store holds a map
from order number to an order record together with its line items. The
product catalog is a set of product ids. A bag is the ordered list of the
session dict's entries. Each entry is `Flat(quantity)` or
`Sized(sizes)`, following the two `isinstance(item_data, int)` branches. JSON
text is abstract: `Dumps` produces a snapshot that `Loads` reads back, and
any other text fails to load.

`Reconciliation` drives both paths together. It proves that:

- a repeated webhook delivery finds the order the first delivery created;
- a webhook arriving after a completed checkout finds that checkout's order.

In both cases the webhook creates nothing, and the table never holds two
matching orders. Both results assume that the grand total models.py saves
on an order equals the intent's amount. The webhook creates its order
without a grand total but looks orders up by the amount. When the two
differ, every delivery that gets its order and line items saved creates
another order for the same payment
(`Reconciliation.RedeliveryDuplicatesWhenTotalsDiffer`).

The model follows the code where its behaviour differs from what its
surrounding messages and flow suggest was intended:

- **Rounding.** `round(total * 100)` on a `Decimal` rounds half to even, not
  half up (`Views.StripeAmount`).
- **Invalid form.** A POST with an invalid form queues an error message and
  then falls out of `checkout` without returning a response (`NoResponse`);
  re-rendering the form was evidently intended.
- **Several matching orders.** The dedup loop catches only
  `Order.DoesNotExist`. When several orders match, the
  `MultipleObjectsReturned` exception escapes the handler and Django answers
  500 (`Raised(MultipleObjectsReturned)`); the loop does not retry.
- **Empty bag.** The empty-bag guard applies only to GET. A POST with an
  empty bag saves an order with no line items.
- **Partial orders from checkout.** The checkout view catches only
  `Product.DoesNotExist`. If the database refuses a line item, the error
  escapes as a 500 and the order stays in the table with only the line
  items saved before the refused one (`Views.PlaceOrder`). The webhook, by
  contrast, deletes its order on any error.

## Model

| member | source | states |
|---|---|---|
| Webhook.HandleEvent | checkout/webhook_handler.py:18-25 | an event with no handler of its own is answered 200 with its type echoed; no store is involved |
| Webhook.HandlePaymentIntentFailed | checkout/webhook_handler.py:175-184 | a failed payment is answered 200 and touches no order |
| Webhook.Status | checkout/webhook_handler.py:73-76 | the status is 400 exactly for missing shipping, 500 exactly for a failed create or an escaping exception, 200 otherwise |
| Webhook.Cleaned | checkout/webhook_handler.py:83-85 | the cleaned address has the same keys, no `""` value, every `""` turned into `None` and every other value kept |
| Webhook.CleanAddress | checkout/webhook_handler.py:83-85 | the loop over the address computes exactly the cleaned address |
| Webhook.ShippingContact | checkout/webhook_handler.py:94-102 | name and phone come from shipping and the email from metadata; each of the six address keys lands in its own order field, never as `""`, with `""` read as `None` and any other value kept |
| Webhook.Fingerprint | checkout/webhook_handler.py:93-106 | the lookup criteria are the shipping contact with the metadata email (or `""`), the intent's amount, the metadata bag text and the intent id |
| Webhook.FindWithRetry | checkout/webhook_handler.py:88-113 | at most five lookups and at least one; every lookup before the last found nothing; the loop stops at the first lookup that does not report DoesNotExist; it makes all five whenever none of the first four matched |
| Webhook.HandlePaymentIntentSucceeded | checkout/webhook_handler.py:27-173 | missing `bag` or `save_info` metadata raises (500); missing shipping gives 400 before any lookup; a found match gives "already in database" and creates nothing; several matches raise; no match creates the order iff the insert succeeds, the bag text loads, every product resolves and every line-item save succeeds; any failure leaves the table as it was; on success exactly one new order holds the shipping contact, the metadata email, the bag text, the intent id and the expanded bag's line items |
| Webhook.CreateFromWebhook | checkout/webhook_handler.py:123-167 | the `try` block creates the order with all its line items exactly when the insert succeeds, the bag loads and the line-item loop ends with every item saved; otherwise the `except` leaves the table exactly as it was |
| Webhook.SaveItemsOrRollback | checkout/webhook_handler.py:140-162 | after the line-item loop the order holds every line item of the bag, or, if the loop stopped on a missing product or a refused save, the order is gone with the items saved so far |
| Orders.IExactCaseBlind | checkout/webhook_handler.py:94-102 | `__iexact` with `None` accepts exactly NULL and with a string exactly a non-NULL value of the same length that differs at most in ASCII letter case; the test is symmetric |
| Orders.MatchesUpToCase | checkout/webhook_handler.py:93-106 | an order meets the twelve criteria iff its nine contact fields are case variants of the wanted ones (NULL only against NULL) and its grand total, bag text and intent id are equal; matching is symmetric |
| Orders.Lookup | checkout/webhook_handler.py:93-106 | `NotFound` iff no stored order matches the criteria; `Found` iff exactly one does |
| Orders.MatchesItself | checkout/webhook_handler.py:93-106 | an order record satisfies all twelve lookup criteria against itself |
| Orders.InsertMakesUniqueMatch | checkout/webhook_handler.py:93-120 | inserting one matching order into a table with no match makes the next lookup find exactly that one |
| Orders.Store.Create | checkout/webhook_handler.py:125-137 | the insert adds one order under a fresh number, with no line items, and changes nothing else |
| Orders.Store.AddLineItem | checkout/webhook_handler.py:143-148 | saving a line item appends it to its order's items and changes nothing else |
| Orders.Store.Delete | checkout/webhook_handler.py:161-162 | deleting an order removes it, with its line items, and nothing else |
| Orders.CreateLineItems | checkout/webhook_handler.py:140-159 | the loop over the bag ends as `LoopOutcome` says (the first missing product, the first refused save, or all saved) and appends exactly `ItemsSaved`: the line items saved before it stopped, in bag order, and nothing else changes |
| Orders.CreateEntryItems | checkout/webhook_handler.py:142-159 | one pass of the bag loop for a resolved product appends that entry's line items, or those before the first refused save and reports the failure, and changes nothing else |
| Orders.CreateSizedItems | checkout/views.py:51-58 | the loop over a sized entry appends one line item per size, in order, with that size's quantity, stopping before the first refused save and reporting it |
| Bag.Dumps | checkout/views.py:38 | the snapshot written for a bag loads back to the same bag |
| Bag.LoadsInvertsDumps | checkout/webhook_handler.py:140 | in the abstract codec, where each bag has one text, a snapshot loads to a bag exactly when it is that bag's dump; real `json.loads` also accepts other spellings of the same bag |
| Bag.EntryItemsShape | checkout/webhook_handler.py:142-159 | a flat entry gives exactly one line item with its quantity and no size; a sized entry gives one line item per size, carrying that size and its quantity |
| Bag.SizedItemsShape | checkout/views.py:51-58 | the k-th line item of a sized entry has the k-th size and its quantity |
| Bag.QuantityOfEntryItems | checkout/views.py:43-58 | the line items of one entry carry, for its product, the entry's quantity or the sum of its sizes, and nothing for any other product |
| Bag.PrefixQuantities | checkout/views.py:40-58 | the line items of the first n entries carry, per product, the quantity those n entries ask for |
| Bag.ExpandPreservesQuantities | checkout/views.py:40-58 | for every product, the line items carry in total the quantity the bag holds for it |
| Bag.QuantityOfSizedItems | checkout/views.py:51-58 | the line items of a sized entry carry the sum of its size quantities |
| Bag.BagQuantityOfEntry | checkout/views.py:40-43 | in a bag with distinct ids, a product's quantity is the quantity of its own entry |
| Bag.BagQuantityAbsent | checkout/views.py:40-42 | a product absent from the bag has quantity zero |
| Bag.MissingIndex | checkout/views.py:40-42 | it finds the first bag entry whose product is not in the catalog; every earlier entry's product is |
| Bag.ExpandPrefixGrows | checkout/views.py:40-58 | expanding more entries only adds line items at the end |
| Bag.ItemsSavedIsPrefix | checkout/views.py:39-65 | the loop saves a prefix of the bag's line items; it ends with all saved iff every product resolves and no save is refused, and then it saved all of them; a refused save at position f leaves exactly f items, fewer than the bag's |
| Bag.FailureCut | checkout/webhook_handler.py:140-159 | a save refused inside entry i keeps every line item of the entries before i and that entry's items before the refused one |
| Bag.OutcomeAtMissing | checkout/views.py:40-42 | reaching entry i with no save refused, where i is the first unknown product or the end, the loop saved exactly the items of the entries before i and reports that product or success |
| Bag.OutcomeAtFailure | checkout/views.py:40-58 | when the first refused save falls inside resolved entry i, the loop reports the failure and saved the earlier entries' items and entry i's items before it |
| Views.SplitHead | checkout/views.py:36 | `split('_secret')[0]` is a prefix of the secret containing no occurrence of `_secret`, and it is the whole string or is followed by one |
| Views.ClientPid | checkout/views.py:36 | the pid is `""` for a missing or empty client secret and the split head otherwise |
| Views.SecretYieldsIntentId | checkout/views.py:36 | a secret of the form `<id>_secret<rest>`, where the id has no `_secret` inside, yields that id as pid |
| Views.StripeAmount | checkout/views.py:81 | the amount is the total in pence rounded to the nearest integer, ties to the even one |
| Views.RoundingStep | checkout/views.py:81 | the rounded quotient is within half a unit of the exact one, and even on a tie |
| Views.SessionBag | checkout/views.py:17 | `session.get('bag', {})` is the stored bag, or the empty bag when there is none |
| Views.PlaceOrder | checkout/views.py:39-65 | the order is saved under a fresh number; a missing product deletes it again; a refused line-item save leaves it with only the items saved before, fewer than the bag's; otherwise it holds all the bag's line items |
| Views.Checkout | checkout/views.py:15-100 | GET: an empty bag redirects to products, otherwise the intent amount is `StripeAmount` of the total, and nothing is stored; invalid POST: nothing is saved and no response is returned; valid POST: a refused order insert is a 500 with nothing saved; a missing product leaves orders and session as they were and redirects to the bag; a refused line-item save is a 500 that leaves a new partial order behind; otherwise one new order with the form's contact, the pid, the bag's JSON and all the bag's line items, `save_info` set to the tick-box, and a redirect to the success page with its number |
| Views.CheckoutSuccess | checkout/views.py:103-120 | an unknown order number is 404 and changes nothing; otherwise the page shows the order's email and the session loses `bag` and nothing else |
| Views.CacheStatus | checkout/views.py:133-137 | 200 exactly when the metadata was attached, 400 otherwise |
| Views.CacheCheckoutData | checkout/views.py:122-137 | succeeds iff a client secret was posted and the intent update succeeds; the intent is the secret's split head; the metadata's bag loads to the session bag, and it carries the posted save-info, the user and the posted email or `""` |
| Reconciliation.FirstLookupDecides | checkout/webhook_handler.py:88-113 | against a table nobody writes to between attempts, a lookup that does not report DoesNotExist is the first one |
| Reconciliation.DeliverWhenAbsent | checkout/webhook_handler.py:88-167 | with no match, no other writer, and the saved grand total equal to the intent's amount, the handler makes all five lookups, then creates exactly one order for the payment (found by the next lookup) iff the insert succeeds, the bag text loads, every product resolves and every line-item save succeeds, and otherwise fails leaving the table unchanged |
| Reconciliation.DeliverWhenPresent | checkout/webhook_handler.py:88-120 | with exactly one match and no other writer, the handler finds it on its first lookup, answers "already in database" and writes nothing |
| Reconciliation.RedeliveryIsIdempotent | checkout/webhook_handler.py:88-173 | delivering the same succeeded event twice, with no prior match and the saved grand total equal to the intent's amount: the first makes five lookups and creates or fails; if it created, the second finds that order on its first lookup and creates nothing; if it failed, the table is unchanged and the second starts over; the table ends with at most that one new order, holding the event's contact, amount, bag text, intent id and line items |
| Reconciliation.DeliverWhenTotalDiffers | checkout/webhook_handler.py:93-137 | with no match and a saved grand total that differs from the intent's amount, a delivery that can create its order does so, and the table still holds no order the lookup would find |
| Reconciliation.RedeliveryDuplicatesWhenTotalsDiffer | checkout/webhook_handler.py:88-173 | with a saved grand total that differs from the intent's amount, two deliveries of the same event both create an order: the table gains two distinct new orders for the one payment and still holds no match |
| Reconciliation.WebhookFindsCheckoutOrder | checkout/views.py:33-68 | after metadata caching, with the saved grand total equal to the intent's amount, the checkout POST succeeds iff its insert and every line-item save succeed and every product resolves; then the webhook for the same intent, whose shipping agrees with the form, finds the order on its first lookup and creates nothing, and the table holds, besides the earlier orders, just the checkout's order under a fresh number, with the form contact, bag text, intent id and all line items |

## Left out

- The sleeps (checkout/webhook_handler.py:39 and 113) and the real race
  between the browser and the webhook are not modelled. The retry loop reads
  one table per attempt from a given sequence. The `Reconciliation` methods
  fix that sequence to five copies of the current table (`Unchanging`).
- The billing-details fetch (checkout/webhook_handler.py:56-63) is not
  modelled. It cannot change the outcome, because its exceptions are
  swallowed.
- Stripe calls (`PaymentIntent.create`, `PaymentIntent.modify`) are left out.
  Whether `modify` succeeds is an input. `create` is reduced to the amount it
  is given.
- The `stripe.api_key` assignments, the debug prints and the Django messages
  are left out.
- Floating point is not modelled. `round(intent.amount / 100, 2)` is taken
  to be the amount itself, so order totals are integer minor units
  throughout.
- The JSON text format is abstract. Only `Loads(Dumps(bag)) == Some(bag)`
  is used, and malformed text fails to load. Each bag has one text here,
  whereas `json.loads` also reads differently spelled texts (other spacing,
  key order or escapes) as the same bag. The lookup compares the text
  exactly, so only `json.dumps` output matters to it.
- models.py is not part of this model:
  - Order-number generation is replaced by a counter in `Store`.
  - Deleting an order drops its line items because they are stored inside
    it.
  - The grand total an order is saved with is an input (`savedTotal`).
  - Whether the database rejects the insert is an input (`insertFails`).
  Which line-item save it first rejects, if any, is an input
  (`saveFailsAt`, a position in saving order).
- `OrderForm` validation is an input (`formValid`). The form's values are
  taken as already-cleaned contact fields.
- bag/contexts.py is not part of this model. The bag total it computes is an
  input (`bagTotal`).
- Rendering is not modelled. Responses and redirects are reduced to outcome
  values.
- Reconciliation.DeliverWhenAbsent, Reconciliation.RedeliveryIsIdempotent,
  Reconciliation.WebhookFindsCheckoutOrder: the dedup results assume that
  the grand total models.py saves equals the intent's amount. The model
  takes this as given, because models.py is not part of it.
  `Reconciliation.RedeliveryDuplicatesWhenTotalsDiffer` shows the duplicate
  orders when it fails.
- Orders.IExactCaseBlind: case folding is ASCII-only, whereas the
  database's `iexact` also folds other letters.
- Webhook.HandlePaymentIntentSucceeded: a shipping record that is present
  but empty (Python-falsy) is not distinguished from a missing one.
- Webhook.HandlePaymentIntentSucceeded: requires the shipping address to
  carry all six Stripe address keys, which Stripe always sends. A missing
  key would raise in the source.
- Views.Checkout: a POST missing one of the nine form fields raises
  `MultiValueDictKeyError` in the source. That case is not modelled,
  because the form always posts all nine.
- Webhook.HandlePaymentIntentFailed: does not model what the handler
  prints.

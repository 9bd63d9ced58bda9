/**
 * The synchronous checkout: the checkout page (GET renders it for a new
 * payment intent, POST saves the order), the success page, and the call
 * that attaches the bag to the payment intent before the browser confirms
 * the payment.
 *
 * The payment processor's calls are parameters: the amount a GET asks an
 * intent for is returned, and whether `PaymentIntent.modify` succeeds is an
 * input. `OrderForm.is_valid()` and the bag pricing of bag/contexts.py are
 * inputs too; neither is part of this model.
 */
module Views {
  import opened Wrappers
  import opened Bag
  import opened Orders
  import opened Stripe

  // ---------------------------------------------------------------------
  // The payment intent id from a client secret
  // ---------------------------------------------------------------------

  /** A client secret is the intent id followed by this marker and the secret proper. */
  const SecretMarker := "_secret"

  predicate OccursAt(s: string, sep: string, i: nat) {
    i + |sep| <= |s| && s[i..i + |sep|] == sep
  }

  /**
   * `s.split(sep)[0]`: the part of `s` before the first occurrence of `sep`,
   * or all of `s` when `sep` does not occur.
   */
  function SplitHead(s: string, sep: string): (head: string)
    requires sep != []
    ensures head <= s
    ensures forall i :: 0 <= i < |head| ==> !OccursAt(s, sep, i)
    ensures head == s || OccursAt(s, sep, |head|)
    decreases |s|
  {
    if |s| < |sep| then s
    else if s[..|sep|] == sep then []
    else
      var rest := SplitHead(s[1..], sep);
      assert forall i :: 0 <= i < |rest| + 1 ==> !OccursAt(s, sep, i) by {
        assert s[0..|sep|] == s[..|sep|];
        forall i | 0 <= i < |rest| + 1 ensures !OccursAt(s, sep, i) {
          if i > 0 {
            assert !OccursAt(s[1..], sep, i - 1);
            if i + |sep| <= |s| {
              assert s[i..i + |sep|] == s[1..][i - 1..i - 1 + |sep|];
            }
          }
        }
      }
      assert rest != s[1..] ==> OccursAt(s, sep, |rest| + 1) by {
        if rest != s[1..] {
          assert s[1..][|rest|..|rest| + |sep|] == s[|rest| + 1..|rest| + 1 + |sep|];
        }
      }
      [s[0]] + rest
  }

  /**
   * The pid the POST of the checkout page stores: `""` when `client_secret`
   * is missing or empty, otherwise its part before `"_secret"`.
   */
  function ClientPid(clientSecret: Option<string>): (pid: string)
    ensures clientSecret.None? || clientSecret == Some("") ==> pid == ""
    ensures clientSecret.Some? ==> pid == SplitHead(clientSecret.value, SecretMarker)
  {
    if clientSecret.Some? && clientSecret.value != "" then SplitHead(clientSecret.value, SecretMarker) else ""
  }

  /**
   * A client secret made of an intent id, the marker and a secret gives back
   * that intent id, provided the marker does not start inside the id.
   */
  lemma SecretYieldsIntentId(id: string, secret: string)
    requires forall i :: 0 <= i < |id| ==> !OccursAt(id + SecretMarker + secret, SecretMarker, i)
    ensures SplitHead(id + SecretMarker + secret, SecretMarker) == id
    ensures ClientPid(Some(id + SecretMarker + secret)) == id
  {
    var s := id + SecretMarker + secret;
    var head := SplitHead(s, SecretMarker);
    assert s[|id|..|id| + |SecretMarker|] == SecretMarker;
    assert OccursAt(s, SecretMarker, |id|);
    assert |head| <= |id|;
    assert |head| == |id|;
    assert head == s[..|head|];
  }

  // ---------------------------------------------------------------------
  // The amount of the payment intent
  // ---------------------------------------------------------------------

  /** A decimal number `digits / 10^exponent`, as `Decimal` holds it. */
  datatype Decimal = Decimal(digits: int, exponent: nat)

  function Pow10(e: nat): (p: nat)
    ensures p >= 1
  {
    if e == 0 then 1 else 10 * Pow10(e - 1)
  }

  /**
   * `round(total * 100)`: the whole number of minor units nearest to the
   * total, a tie going to the even neighbour (Python's `round` rounds half
   * to even).
   */
  function StripeAmount(total: Decimal): (amount: int)
    ensures var scaled: int, unit: int := total.digits * 100, Pow10(total.exponent);
      && -unit <= 2 * (scaled - amount * unit) <= unit
      && (2 * (scaled - amount * unit) == unit || 2 * (scaled - amount * unit) == -unit ==> amount % 2 == 0)
  {
    var scaled: int, unit: int := total.digits * 100, Pow10(total.exponent);
    var q, rem := scaled / unit, scaled % unit;
    var amount := if 2 * rem < unit then q
                  else if 2 * rem > unit then q + 1
                  else if q % 2 == 0 then q
                  else q + 1;
    RoundingStep(scaled, unit, q, rem, amount);
    amount
  }

  /** The distance from `scaled` to the multiple of `unit` the rounding picks. */
  lemma RoundingStep(scaled: int, unit: int, q: int, rem: int, amount: int)
    requires unit >= 1 && q == scaled / unit && rem == scaled % unit
    requires amount == if 2 * rem < unit then q
                       else if 2 * rem > unit then q + 1
                       else if q % 2 == 0 then q
                       else q + 1
    ensures -unit <= 2 * (scaled - amount * unit) <= unit
    ensures 2 * (scaled - amount * unit) == unit || 2 * (scaled - amount * unit) == -unit ==> amount % 2 == 0
  {
    assert scaled == q * unit + rem;
    assert 0 <= rem < unit;
    var d := scaled - amount * unit;
    if amount == q {
      assert d == rem;
    } else {
      assert amount * unit == q * unit + unit;
      assert d == rem - unit;
    }
  }

  // ---------------------------------------------------------------------
  // The session
  // ---------------------------------------------------------------------

  datatype SessionValue = BagValue(bag: Bag) | FlagValue(flag: bool) | TextValue(text: string)

  /** The user's session: a mutable key-value store. */
  class Session {
    var data: map<string, SessionValue>

    constructor (data: map<string, SessionValue>)
      ensures this.data == data
    {
      this.data := data;
    }
  }

  /**
   * `request.session.get('bag', {})`: the stored bag, or the empty bag when
   * the session has none (the bag app only ever stores a bag under `bag`).
   */
  function SessionBag(data: map<string, SessionValue>): (bag: Bag)
    ensures "bag" !in data ==> bag == []
    ensures "bag" in data && data["bag"].BagValue? ==> bag == data["bag"].bag
  {
    if "bag" in data && data["bag"].BagValue? then data["bag"].bag else []
  }

  // ---------------------------------------------------------------------
  // checkout
  // ---------------------------------------------------------------------

  datatype CheckoutRequest =
    | Get                                                                // any method but POST
    | Post(form: Contact, clientSecret: Option<string>, saveInfoTicked: bool)  // the form's values; 'save-info' in POST

  datatype CheckoutResult =
    | RedirectProducts                    // empty bag
    | RenderCheckout(intentAmount: int)   // the form, with the secret of an intent for this amount
    | RedirectViewBag                     // a product was missing; the order was deleted
    | RedirectSuccess(orderNumber: OrderNumber)
    | NoResponse                          // the view returns None
    | ServerError                         // a database error escapes the view: Django answers 500

  /**
   * The checkout page. `formValid` is `OrderForm(form_data).is_valid()`,
   * `bagTotal` the grand total bag/contexts.py prices the bag at, and
   * `savedTotal` the grand total models.py gives the saved order.
   * `insertFails` says whether the database refuses `order.save()`, and
   * `saveFailsAt` is the position, in saving order, of the first line item
   * it refuses. Only `Product.DoesNotExist` is caught: any other database
   * error leaves the view with what was saved so far still in place.
   */
  method Checkout(
    request: CheckoutRequest, session: Session, store: Store, catalog: set<ProductId>,
    formValid: bool, bagTotal: Decimal, savedTotal: int, insertFails: bool, saveFailsAt: Option<nat>)
    returns (r: CheckoutResult)
    requires store.Valid()
    modifies store, session
    ensures store.Valid()
    ensures request.Get? ==> store.orders == old(store.orders) && session.data == old(session.data)
    ensures request.Get? && SessionBag(old(session.data)) == [] ==> r == RedirectProducts
    ensures request.Get? && SessionBag(old(session.data)) != [] ==> r == RenderCheckout(StripeAmount(bagTotal))
    ensures request.Post? && !formValid ==>
      r == NoResponse && store.orders == old(store.orders) && session.data == old(session.data)
    ensures request.Post? && formValid && insertFails ==>
      r == ServerError && store.orders == old(store.orders) && session.data == old(session.data)
    ensures request.Post? && formValid && !insertFails ==>
      var bag := SessionBag(old(session.data));
      var order := Order(request.form, savedTotal, Dumps(bag), ClientPid(request.clientSecret));
      var outcome := LoopOutcome(bag, catalog, saveFailsAt);
      && (outcome.ProductMissing? ==>
            && r == RedirectViewBag
            && store.orders == old(store.orders)
            && session.data == old(session.data))
      && (outcome == SaveFailed ==>
            && r == ServerError
            && session.data == old(session.data)
            && exists num: OrderNumber ::
                 && num !in old(store.orders)
                 && store.orders == old(store.orders)[num := StoredOrder(order, ItemsSaved(bag, catalog, saveFailsAt))]
                 && |store.orders[num].lineItems| < |Expand(bag)|)
      && (outcome == AllSaved ==>
            && r.RedirectSuccess?
            && r.orderNumber !in old(store.orders)
            && store.orders == old(store.orders)[r.orderNumber := StoredOrder(order, Expand(bag))]
            && session.data == old(session.data)["save_info" := FlagValue(request.saveInfoTicked)])
  {
    var bag := SessionBag(session.data);
    if request.Post? {
      if formValid {
        var pid := ClientPid(request.clientSecret);
        if insertFails {
          r := ServerError;
          return;
        }
        var outcome, num := PlaceOrder(store, Order(request.form, savedTotal, Dumps(bag), pid), bag, catalog, saveFailsAt);
        if outcome.ProductMissing? {
          r := RedirectViewBag;
          return;
        }
        if outcome == SaveFailed {
          r := ServerError;
          return;
        }
        session.data := session.data["save_info" := FlagValue(request.saveInfoTicked)];
        r := RedirectSuccess(num);
        return;
      } else {
        // The error message is queued, then control falls out of the view.
        r := NoResponse;
      }
    } else {
      if bag == [] {
        r := RedirectProducts;
        return;
      }
      var stripeTotal := StripeAmount(bagTotal);
      r := RenderCheckout(stripeTotal);
    }
  }

  /**
   * The valid-form branch of `checkout` from `order.save()` on: the line-item
   * loop, and the `except Product.DoesNotExist` that deletes the order. A
   * refused line-item save is not caught, so the order stays with the items
   * saved before it.
   */
  method PlaceOrder(store: Store, order: Order, bag: Bag, catalog: set<ProductId>, saveFailsAt: Option<nat>)
    returns (outcome: ItemsOutcome, num: OrderNumber)
    requires store.Valid()
    modifies store
    ensures store.Valid()
    ensures outcome == LoopOutcome(bag, catalog, saveFailsAt)
    ensures num !in old(store.orders)
    ensures outcome.ProductMissing? ==> store.orders == old(store.orders)
    ensures outcome == SaveFailed ==>
      && store.orders == old(store.orders)[num := StoredOrder(order, ItemsSaved(bag, catalog, saveFailsAt))]
      && |store.orders[num].lineItems| < |Expand(bag)|
    ensures outcome == AllSaved ==> store.orders == old(store.orders)[num := StoredOrder(order, Expand(bag))]
  {
    num := store.Create(order);
    outcome := CreateLineItems(store, num, bag, catalog, saveFailsAt);
    ghost var saved := ItemsSaved(bag, catalog, saveFailsAt);
    assert [] + saved == saved;
    Overwrite(old(store.orders), num, StoredOrder(order, []), StoredOrder(order, saved));
    ItemsSavedIsPrefix(bag, catalog, saveFailsAt);
    if outcome.ProductMissing? {
      ghost var withItems := store.orders;
      store.Delete(num);
      assert withItems - {num} == old(store.orders);
    }
  }

  // ---------------------------------------------------------------------
  // checkout_success
  // ---------------------------------------------------------------------

  datatype SuccessResult =
    | OrderMissing                                             // 404
    | Confirmation(orderNumber: OrderNumber, email: Option<string>)

  /** The success page: shows the order and drops the bag from the session. */
  method CheckoutSuccess(session: Session, store: Store, orderNumber: OrderNumber) returns (r: SuccessResult)
    modifies session
    ensures orderNumber !in store.orders ==> r == OrderMissing && session.data == old(session.data)
    ensures orderNumber in store.orders ==>
      && r == Confirmation(orderNumber, store.orders[orderNumber].order.contact.email)
      && session.data == old(session.data) - {"bag"}
  {
    if orderNumber !in store.orders {
      r := OrderMissing;
      return;
    }
    var order := store.orders[orderNumber].order;
    if "bag" in session.data {
      session.data := session.data - {"bag"};
    }
    r := Confirmation(orderNumber, order.contact.email);
  }

  // ---------------------------------------------------------------------
  // cache_checkout_data
  // ---------------------------------------------------------------------

  /** The POST fields: `client_secret`, `save_info`, `email`. */
  datatype CachePost = CachePost(clientSecret: Option<string>, saveInfo: Option<string>, email: Option<string>)

  /** The intent whose metadata was set and the metadata set on it, or the 400 answer. */
  datatype CacheResult = Cached(pid: string, metadata: Metadata) | CacheFailed

  function CacheStatus(r: CacheResult): (code: int)
    ensures code == 200 <==> r.Cached?
    ensures code == 400 <==> r.CacheFailed?
  {
    if r.Cached? then 200 else 400
  }

  /**
   * Attach the session's bag and the contact email to the payment intent.
   * A missing `client_secret` fails the `.split` and, like a failed
   * `PaymentIntent.modify`, is answered with 400.
   */
  function CacheCheckoutData(post: CachePost, session: Session, username: string, modifySucceeds: bool): (r: CacheResult)
    reads session
    ensures r.Cached? <==> post.clientSecret.Some? && modifySucceeds
    ensures r.Cached? ==>
      && r.pid == SplitHead(post.clientSecret.value, SecretMarker)
      && r.metadata.bag.Some?
      && Loads(r.metadata.bag.value) == Some(SessionBag(session.data))
      && r.metadata.saveInfo == post.saveInfo
      && r.metadata.username == Some(username)
      && r.metadata.email == Some(post.email.GetOr(""))
  {
    if post.clientSecret.None? then CacheFailed
    else
      var pid := SplitHead(post.clientSecret.value, SecretMarker);
      if !modifySucceeds then CacheFailed
      else Cached(pid, Metadata(Some(Dumps(SessionBag(session.data))), post.saveInfo, Some(username), Some(post.email.GetOr(""))))
  }
}

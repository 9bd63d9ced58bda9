/**
 * Orders, their line items, the dedup lookup and the order store that both
 * checkout paths write to.
 *
 * The store is the database seen through the Django ORM: a table from order
 * number to the order record together with its line items (so deleting an
 * order takes its line items with it, as the cascade in models.py does).
 */
module Orders {
  import opened Wrappers
  import opened Bag

  type OrderNumber = nat

  /** The nine contact fields of an order; each may be NULL. */
  datatype Contact = Contact(
    fullName: Option<string>,
    email: Option<string>,
    phoneNumber: Option<string>,
    country: Option<string>,
    postcode: Option<string>,
    townOrCity: Option<string>,
    streetAddress1: Option<string>,
    streetAddress2: Option<string>,
    county: Option<string>)

  /**
   * An order record. The same shape serves as the twelve criteria of the
   * dedup lookup: the contact fields, the grand total (in minor units), the
   * original bag snapshot and the payment intent id.
   */
  datatype Order = Order(contact: Contact, grandTotal: int, originalBag: Snapshot, stripePid: string)

  datatype StoredOrder = StoredOrder(order: Order, lineItems: seq<LineItem>)

  type OrderTable = map<OrderNumber, StoredOrder>

  // ---------------------------------------------------------------------
  // Case-insensitive matching (`__iexact`)
  // ---------------------------------------------------------------------

  function FoldChar(c: char): char {
    if 'A' <= c <= 'Z' then (c as int + 32) as char else c
  }

  /** ASCII lower-casing, the comparison key of `__iexact`. */
  function Fold(s: string): string {
    seq(|s|, i requires 0 <= i < |s| => FoldChar(s[i]))
  }

  /**
   * `stored__iexact=wanted`: with `None` Django asks for `IS NULL`; with a
   * string it asks for a non-NULL value equal up to letter case.
   */
  predicate IExact(stored: Option<string>, wanted: Option<string>) {
    match wanted
    case None => stored.None?
    case Some(w) => stored.Some? && Fold(stored.value) == Fold(w)
  }

  predicate ContactMatches(stored: Contact, wanted: Contact) {
    && IExact(stored.fullName, wanted.fullName)
    && IExact(stored.email, wanted.email)
    && IExact(stored.phoneNumber, wanted.phoneNumber)
    && IExact(stored.country, wanted.country)
    && IExact(stored.postcode, wanted.postcode)
    && IExact(stored.townOrCity, wanted.townOrCity)
    && IExact(stored.streetAddress1, wanted.streetAddress1)
    && IExact(stored.streetAddress2, wanted.streetAddress2)
    && IExact(stored.county, wanted.county)
  }

  /** All twelve criteria: nine case-insensitive, three exact. */
  predicate Matches(stored: Order, wanted: Order) {
    && ContactMatches(stored.contact, wanted.contact)
    && stored.grandTotal == wanted.grandTotal
    && stored.originalBag == wanted.originalBag
    && stored.stripePid == wanted.stripePid
  }

  /** `c` and `d` are the same character, or the same ASCII letter in the other case. */
  predicate SameLetter(c: char, d: char) {
    || c == d
    || ('A' <= c <= 'Z' && d as int == c as int + 32)
    || ('A' <= d <= 'Z' && c as int == d as int + 32)
  }

  /** `s` and `t` spell the same text up to ASCII letter case. */
  predicate CaseVariant(s: string, t: string) {
    |s| == |t| && forall i :: 0 <= i < |s| ==> SameLetter(s[i], t[i])
  }

  /** Two optional column values that `__iexact` treats alike: both NULL, or case variants. */
  predicate FieldVariant(a: Option<string>, b: Option<string>) {
    (a.None? && b.None?) || (a.Some? && b.Some? && CaseVariant(a.value, b.value))
  }

  /**
   * What `stored__iexact=wanted` accepts: for `None`, exactly a NULL value;
   * for a string, exactly a non-NULL value of the same length that differs
   * from it at most in the case of ASCII letters. So the test is symmetric.
   */
  lemma IExactCaseBlind(stored: Option<string>, wanted: Option<string>)
    ensures IExact(stored, wanted) <==> FieldVariant(stored, wanted)
    ensures IExact(stored, wanted) <==> IExact(wanted, stored)
  {
    if stored.Some? && wanted.Some? {
      FoldedIffVariant(stored.value, wanted.value);
      FoldedIffVariant(wanted.value, stored.value);
    }
  }

  lemma FoldedIffVariant(s: string, t: string)
    ensures Fold(s) == Fold(t) <==> CaseVariant(s, t)
  {
    if Fold(s) == Fold(t) {
      forall i | 0 <= i < |s| ensures SameLetter(s[i], t[i]) {
        assert FoldChar(s[i]) == Fold(s)[i] == Fold(t)[i] == FoldChar(t[i]);
      }
    }
    if CaseVariant(s, t) {
      assert forall i :: 0 <= i < |s| ==> Fold(s)[i] == Fold(t)[i];
    }
  }

  /**
   * The twelve criteria in plain terms: the nine contact fields agree up to
   * letter case (NULL only with NULL), the grand total, bag text and intent
   * id agree exactly. Matching is therefore symmetric.
   */
  lemma MatchesUpToCase(stored: Order, wanted: Order)
    ensures Matches(stored, wanted) <==>
      && FieldVariant(stored.contact.fullName, wanted.contact.fullName)
      && FieldVariant(stored.contact.email, wanted.contact.email)
      && FieldVariant(stored.contact.phoneNumber, wanted.contact.phoneNumber)
      && FieldVariant(stored.contact.country, wanted.contact.country)
      && FieldVariant(stored.contact.postcode, wanted.contact.postcode)
      && FieldVariant(stored.contact.townOrCity, wanted.contact.townOrCity)
      && FieldVariant(stored.contact.streetAddress1, wanted.contact.streetAddress1)
      && FieldVariant(stored.contact.streetAddress2, wanted.contact.streetAddress2)
      && FieldVariant(stored.contact.county, wanted.contact.county)
      && stored.grandTotal == wanted.grandTotal
      && stored.originalBag == wanted.originalBag
      && stored.stripePid == wanted.stripePid
    ensures Matches(stored, wanted) <==> Matches(wanted, stored)
  {
    var s, w := stored.contact, wanted.contact;
    IExactCaseBlind(s.fullName, w.fullName);
    IExactCaseBlind(s.email, w.email);
    IExactCaseBlind(s.phoneNumber, w.phoneNumber);
    IExactCaseBlind(s.country, w.country);
    IExactCaseBlind(s.postcode, w.postcode);
    IExactCaseBlind(s.townOrCity, w.townOrCity);
    IExactCaseBlind(s.streetAddress1, w.streetAddress1);
    IExactCaseBlind(s.streetAddress2, w.streetAddress2);
    IExactCaseBlind(s.county, w.county);
  }

  /** An order matches the criteria it was created from, whatever their letter case. */
  lemma MatchesItself(o: Order)
    ensures Matches(o, o)
  {
  }

  // ---------------------------------------------------------------------
  // The dedup lookup (`Order.objects.get(...)`)
  // ---------------------------------------------------------------------

  /** What `Order.objects.get` does: return the one match, raise `DoesNotExist`, or raise `MultipleObjectsReturned`. */
  datatype LookupResult = NotFound | Found | MultipleFound

  function Matching(table: OrderTable, wanted: Order): set<OrderNumber> {
    set n | n in table && Matches(table[n].order, wanted)
  }

  function Lookup(table: OrderTable, wanted: Order): (r: LookupResult)
    ensures r == NotFound <==> forall n :: n in table ==> !Matches(table[n].order, wanted)
    ensures r == Found <==> exists n :: Matching(table, wanted) == {n}
  {
    var hits := Matching(table, wanted);
    if hits == {} then
      NoneMatch(table, wanted);
      NotFound
    else if |hits| == 1 then
      var n :| n in hits;
      SingletonIs(hits, n);
      Found
    else
      assert forall n :: hits != {n};
      MultipleFound
  }

  lemma NoneMatch(table: OrderTable, wanted: Order)
    requires Matching(table, wanted) == {}
    ensures forall n :: n in table ==> !Matches(table[n].order, wanted)
  {
    forall n | n in table ensures !Matches(table[n].order, wanted) {
      assert n !in Matching(table, wanted);
    }
  }

  lemma SingletonIs(s: set<OrderNumber>, x: OrderNumber)
    requires |s| == 1 && x in s
    ensures s == {x}
  {
    if y :| y in s && y != x {
      assert {x, y} <= s;
      assert |{x, y}| == 2;
      SubsetCard({x, y}, s);
    }
  }

  lemma SubsetCard(a: set<OrderNumber>, b: set<OrderNumber>)
    requires a <= b
    ensures |a| <= |b|
  {
    assert b == a + (b - a);
  }

  /**
   * Inserting an order that meets the criteria into a table where nothing
   * met them leaves exactly one match: the next lookup finds it.
   */
  lemma InsertMakesUniqueMatch(table: OrderTable, num: OrderNumber, entry: StoredOrder, wanted: Order)
    requires num !in table
    requires Lookup(table, wanted) == NotFound
    requires Matches(entry.order, wanted)
    ensures Lookup(table[num := entry], wanted) == Found
  {
    var t := table[num := entry];
    forall m | m in Matching(t, wanted) ensures m == num {
    }
    assert num in Matching(t, wanted);
    assert Matching(t, wanted) == {num};
  }

  // ---------------------------------------------------------------------
  // The store
  // ---------------------------------------------------------------------

  /**
   * The Order and OrderLineItem tables. New order numbers are drawn from a
   * counter; the uuid generation of models.py is not part of this model.
   */
  class Store {
    var orders: OrderTable
    var nextNumber: OrderNumber

    ghost predicate Valid()
      reads this
    {
      forall n :: n in orders ==> n < nextNumber
    }

    constructor ()
      ensures Valid() && orders == map[]
    {
      orders := map[];
      nextNumber := 0;
    }

    /** `Order.objects.create(...)` / `order.save()`: a new order with no line items yet. */
    method Create(order: Order) returns (num: OrderNumber)
      requires Valid()
      modifies this
      ensures Valid()
      ensures num !in old(orders)
      ensures orders == old(orders)[num := StoredOrder(order, [])]
    {
      num := nextNumber;
      orders := orders[num := StoredOrder(order, [])];
      nextNumber := nextNumber + 1;
    }

    /** `OrderLineItem(order=..., ...).save()`. */
    method AddLineItem(num: OrderNumber, item: LineItem)
      requires Valid() && num in orders
      modifies this
      ensures Valid()
      ensures orders == old(orders)[num := old(orders)[num].(lineItems := old(orders)[num].lineItems + [item])]
    {
      orders := orders[num := orders[num].(lineItems := orders[num].lineItems + [item])];
    }

    /** `order.delete()`: the order goes, and its line items with it. */
    method Delete(num: OrderNumber)
      requires Valid() && num in orders
      modifies this
      ensures Valid()
      ensures orders == old(orders) - {num}
    {
      orders := orders - {num};
    }
  }

  /**
   * The line-item loop both checkout paths run after saving the order: for
   * each bag entry, resolve the product, then save one line item for a flat
   * entry or one per size for a sized entry. It stops at the first product
   * that does not resolve or the first save that raises, and leaves the
   * items saved so far (the webhook's compensating delete removes them with
   * the order; the checkout view deletes only on a missing product).
   * `saveFailsAt` is the position, in saving order, of the first save the
   * database refuses.
   */
  method CreateLineItems(store: Store, num: OrderNumber, bag: Bag, catalog: set<ProductId>, saveFailsAt: Option<nat>)
    returns (outcome: ItemsOutcome)
    requires store.Valid() && num in store.orders
    modifies store
    ensures store.Valid()
    ensures outcome == LoopOutcome(bag, catalog, saveFailsAt)
    ensures store.orders == old(store.orders)[num := old(store.orders)[num].(
      lineItems := old(store.orders)[num].lineItems + ItemsSaved(bag, catalog, saveFailsAt))]
  {
    ghost var before := store.orders[num];
    assert before.(lineItems := before.lineItems + ExpandPrefix(bag, 0)) == before;
    var i, saved := 0, 0;
    while i < |bag|
      invariant i <= |bag| && forall j :: 0 <= j < i ==> bag[j].id in catalog
      invariant saved == |ExpandPrefix(bag, i)|
      invariant saveFailsAt.None? || saved <= saveFailsAt.value
      invariant store.Valid()
      invariant store.orders == old(store.orders)[num := before.(lineItems := before.lineItems + ExpandPrefix(bag, i))]
      decreases |bag| - i
    {
      if bag[i].id !in catalog {
        OutcomeAtMissing(bag, catalog, saveFailsAt, i);
        return ProductMissing(bag[i].id);
      }
      var entryFailsAt := if saveFailsAt.Some? then Some(saveFailsAt.value - saved) else None;
      var failed := CreateEntryItems(store, num, bag[i], entryFailsAt);
      if failed {
        OutcomeAtFailure(bag, catalog, saveFailsAt, i);
        ExtendItems(old(store.orders), num, before, ExpandPrefix(bag, i), EntryItems(bag[i])[..saveFailsAt.value - saved]);
        return SaveFailed;
      }
      ExtendItems(old(store.orders), num, before, ExpandPrefix(bag, i), EntryItems(bag[i]));
      i, saved := i + 1, saved + |EntryItems(bag[i])|;
    }
    OutcomeAtMissing(bag, catalog, saveFailsAt, i);
    outcome := AllSaved;
  }

  /** Writing an order twice under one number keeps the second write. */
  lemma Overwrite(table: OrderTable, num: OrderNumber, first: StoredOrder, second: StoredOrder)
    ensures table[num := first][num := second] == table[num := second]
  {
  }

  /** Saving `b` after `a` leaves the order with `a + b` behind its earlier items. */
  lemma ExtendItems(table: OrderTable, num: OrderNumber, order: StoredOrder, a: seq<LineItem>, b: seq<LineItem>)
    ensures var t := table[num := order.(lineItems := order.lineItems + a)];
      t[num := t[num].(lineItems := t[num].lineItems + b)]
        == table[num := order.(lineItems := order.lineItems + (a + b))]
  {
    assert order.lineItems + a + b == order.lineItems + (a + b);
  }

  /**
   * One pass of the line-item loop for an entry whose product resolved.
   * `saveFailsAt` counts from this entry's first save.
   */
  method CreateEntryItems(store: Store, num: OrderNumber, line: BagLine, saveFailsAt: Option<nat>)
    returns (failed: bool)
    requires store.Valid() && num in store.orders
    modifies store
    ensures store.Valid()
    ensures failed <==> saveFailsAt.Some? && saveFailsAt.value < |EntryItems(line)|
    ensures store.orders == old(store.orders)[num := old(store.orders)[num].(
      lineItems := old(store.orders)[num].lineItems
        + if failed then EntryItems(line)[..saveFailsAt.value] else EntryItems(line))]
  {
    match line.entry {
      case Flat(q) =>
        if saveFailsAt == Some(0) {
          assert old(store.orders)[num].lineItems + EntryItems(line)[..0] == old(store.orders)[num].lineItems;
          return true;
        }
        store.AddLineItem(num, LineItem(line.id, q, None));
        failed := false;
      case Sized(sizes) =>
        failed := CreateSizedItems(store, num, line.id, sizes, saveFailsAt);
    }
  }

  /** The inner loop of the line-item loop: one line item per size of a sized entry. */
  method CreateSizedItems(store: Store, num: OrderNumber, id: ProductId, sizes: seq<SizeQty>, saveFailsAt: Option<nat>)
    returns (failed: bool)
    requires store.Valid() && num in store.orders
    modifies store
    ensures store.Valid()
    ensures failed <==> saveFailsAt.Some? && saveFailsAt.value < |SizedItems(id, sizes)|
    ensures store.orders == old(store.orders)[num := old(store.orders)[num].(
      lineItems := old(store.orders)[num].lineItems
        + if failed then SizedItems(id, sizes)[..saveFailsAt.value] else SizedItems(id, sizes))]
  {
    ghost var before := store.orders[num];
    ghost var items := SizedItems(id, sizes);
    SizedItemsShape(id, sizes);
    var j := 0;
    while j < |sizes|
      invariant 0 <= j <= |sizes|
      invariant saveFailsAt.None? || j <= saveFailsAt.value
      invariant store.Valid() && num in store.orders
      invariant store.orders == old(store.orders)[num := store.orders[num]]
      invariant store.orders[num].order == before.order
      invariant store.orders[num].lineItems == before.lineItems + items[..j]
    {
      if saveFailsAt == Some(j) {
        failed := true;
        return;
      }
      store.AddLineItem(num, SizedItem(id, sizes[j]));
      assert items[..j + 1] == items[..j] + [items[j]];
      j := j + 1;
    }
    assert items[..|sizes|] == items;
    failed := false;
  }
}

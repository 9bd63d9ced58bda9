/**
 * The shopping bag that both checkout paths turn into order line items.
 *
 * In the session and in the JSON snapshot a bag maps a product id either to
 * a plain quantity or to `{"items_by_size": {size: quantity}}`. Python dicts
 * and JSON objects keep insertion order, and the order decides which line
 * item is saved first and which missing product is met first, so the model
 * keeps both mappings as sequences in that order.
 */
module Bag {
  import opened Wrappers

  type ProductId = string

  /** One size of a sized product and the quantity wanted in it. */
  datatype SizeQty = SizeQty(size: string, quantity: int)

  /** The value stored under a product id in the bag. */
  datatype BagEntry =
    | Flat(quantity: int)           // `isinstance(item_data, int)`
    | Sized(bySize: seq<SizeQty>)   // `item_data['items_by_size']`

  datatype BagLine = BagLine(id: ProductId, entry: BagEntry)

  type Bag = seq<BagLine>

  /** A bag read back from a dict: no product id occurs twice. */
  ghost predicate DistinctIds(bag: Bag) {
    forall i, j :: 0 <= i < j < |bag| ==> bag[i].id != bag[j].id
  }

  /** An order line item: product, quantity, and the size for sized products. */
  datatype LineItem = LineItem(product: ProductId, quantity: int, size: Option<string>)

  /**
   * The JSON text of a bag, as stored in `Order.original_bag` and carried in
   * the payment intent's metadata. The text format itself is not modelled:
   * a text is either what `json.dumps` made of a bag or one that does not
   * read back as a bag. Two texts are equal exactly when they are the same
   * value here, which assumes `json.dumps` is deterministic.
   */
  datatype Snapshot = Dumped(bag: Bag) | Malformed(text: string)

  /** `json.loads` of a bag snapshot; `None` when it raises or is not a bag. */
  function Loads(s: Snapshot): Option<Bag> {
    match s
    case Dumped(b) => Some(b)
    case Malformed(_) => None
  }

  /** `json.dumps` of a bag: reading it back gives the same bag. */
  function Dumps(bag: Bag): (s: Snapshot)
    ensures Loads(s) == Some(bag)
  {
    Dumped(bag)
  }

  /** The only text that reads back as a given bag is that bag's dump. */
  lemma LoadsInvertsDumps(s: Snapshot, bag: Bag)
    ensures Loads(s) == Some(bag) <==> s == Dumps(bag)
  {
  }

  // ---------------------------------------------------------------------
  // Expanding a bag into line items
  // ---------------------------------------------------------------------

  function SizedItem(id: ProductId, sq: SizeQty): LineItem {
    LineItem(id, sq.quantity, Some(sq.size))
  }

  /** The line items of a sized entry, in the order of its sizes. */
  function SizedItems(id: ProductId, sizes: seq<SizeQty>): seq<LineItem> {
    if sizes == [] then []
    else SizedItems(id, sizes[..|sizes| - 1]) + [SizedItem(id, sizes[|sizes| - 1])]
  }

  /** The line items one bag entry gives. */
  function EntryItems(line: BagLine): seq<LineItem> {
    match line.entry
    case Flat(q) => [LineItem(line.id, q, None)]
    case Sized(sizes) => SizedItems(line.id, sizes)
  }

  /** The line items the first `n` entries of a bag give, entry after entry. */
  function ExpandPrefix(bag: Bag, n: nat): seq<LineItem>
    requires n <= |bag|
  {
    if n == 0 then [] else ExpandPrefix(bag, n - 1) + EntryItems(bag[n - 1])
  }

  /** The line items a whole bag gives. */
  function Expand(bag: Bag): seq<LineItem> {
    ExpandPrefix(bag, |bag|)
  }

  /** A sized entry gives one line item per size, carrying that size and its quantity. */
  lemma {:induction false} SizedItemsShape(id: ProductId, sizes: seq<SizeQty>)
    ensures |SizedItems(id, sizes)| == |sizes|
    ensures forall k :: 0 <= k < |sizes| ==>
      SizedItems(id, sizes)[k] == LineItem(id, sizes[k].quantity, Some(sizes[k].size))
  {
    if sizes != [] {
      SizedItemsShape(id, sizes[..|sizes| - 1]);
    }
  }

  /**
   * A flat entry gives exactly one line item with its quantity and no size;
   * a sized entry gives one line item per size key with that key's quantity.
   */
  lemma EntryItemsShape(line: BagLine)
    ensures line.entry.Flat? ==> EntryItems(line) == [LineItem(line.id, line.entry.quantity, None)]
    ensures line.entry.Sized? ==>
      && |EntryItems(line)| == |line.entry.bySize|
      && forall k :: 0 <= k < |line.entry.bySize| ==>
           EntryItems(line)[k] == LineItem(line.id, line.entry.bySize[k].quantity, Some(line.entry.bySize[k].size))
  {
    if line.entry.Sized? {
      SizedItemsShape(line.id, line.entry.bySize);
    }
  }

  // ---------------------------------------------------------------------
  // Quantities: the line items reconstruct the bag
  // ---------------------------------------------------------------------

  /** The total quantity of product `p` over some line items. */
  function QuantityOf(items: seq<LineItem>, p: ProductId): int {
    if items == [] then 0
    else QuantityOf(items[..|items| - 1], p)
         + (if items[|items| - 1].product == p then items[|items| - 1].quantity else 0)
  }

  function SizeTotal(sizes: seq<SizeQty>): int {
    if sizes == [] then 0 else SizeTotal(sizes[..|sizes| - 1]) + sizes[|sizes| - 1].quantity
  }

  /** The quantity a bag entry asks for: the plain quantity, or the sum over its sizes. */
  function EntryQuantity(entry: BagEntry): int {
    match entry
    case Flat(q) => q
    case Sized(sizes) => SizeTotal(sizes)
  }

  /** The quantity the first `n` entries of a bag ask for of product `p`. */
  function PrefixQuantity(bag: Bag, n: nat, p: ProductId): int
    requires n <= |bag|
  {
    if n == 0 then 0
    else PrefixQuantity(bag, n - 1, p) + (if bag[n - 1].id == p then EntryQuantity(bag[n - 1].entry) else 0)
  }

  /** The quantity the bag asks for of product `p`, over every entry with that id. */
  function BagQuantity(bag: Bag, p: ProductId): int {
    PrefixQuantity(bag, |bag|, p)
  }

  lemma {:induction false} QuantityOfAppend(a: seq<LineItem>, b: seq<LineItem>, p: ProductId)
    ensures QuantityOf(a + b, p) == QuantityOf(a, p) + QuantityOf(b, p)
  {
    if b == [] {
      assert a + b == a;
    } else {
      assert (a + b)[..|a + b| - 1] == a + b[..|b| - 1];
      assert (a + b)[|a + b| - 1] == b[|b| - 1];
      QuantityOfAppend(a, b[..|b| - 1], p);
    }
  }

  lemma {:induction false} QuantityOfSizedItems(id: ProductId, sizes: seq<SizeQty>, p: ProductId)
    ensures QuantityOf(SizedItems(id, sizes), p) == if id == p then SizeTotal(sizes) else 0
  {
    if sizes != [] {
      var init := sizes[..|sizes| - 1];
      QuantityOfSizedItems(id, init, p);
      QuantityOfAppend(SizedItems(id, init), [SizedItem(id, sizes[|sizes| - 1])], p);
      assert [SizedItem(id, sizes[|sizes| - 1])][..0] == [];
    }
  }

  /** The line items of one entry carry, for its own product, the quantity the entry asks for. */
  lemma QuantityOfEntryItems(line: BagLine, p: ProductId)
    ensures QuantityOf(EntryItems(line), p) == if line.id == p then EntryQuantity(line.entry) else 0
  {
    match line.entry
    case Flat(q) =>
      assert [LineItem(line.id, q, None)][..0] == [];
    case Sized(sizes) =>
      QuantityOfSizedItems(line.id, sizes, p);
  }

  /** The line items of the first `n` entries hold what those entries ask for, per product. */
  lemma {:induction false} PrefixQuantities(bag: Bag, n: nat, p: ProductId)
    requires n <= |bag|
    ensures QuantityOf(ExpandPrefix(bag, n), p) == PrefixQuantity(bag, n, p)
  {
    if n != 0 {
      PrefixQuantities(bag, n - 1, p);
      QuantityOfAppend(ExpandPrefix(bag, n - 1), EntryItems(bag[n - 1]), p);
      QuantityOfEntryItems(bag[n - 1], p);
    }
  }

  /**
   * The line items of a bag hold, per product, exactly the quantity the bag
   * asks for: a flat quantity, or the sum of its per-size quantities.
   */
  lemma ExpandPreservesQuantities(bag: Bag, p: ProductId)
    ensures QuantityOf(Expand(bag), p) == BagQuantity(bag, p)
  {
    PrefixQuantities(bag, |bag|, p);
  }

  /** In a bag read from a dict, `BagQuantity` is the quantity of the one entry for `p`. */
  lemma BagQuantityOfEntry(bag: Bag, i: nat)
    requires DistinctIds(bag)
    requires i < |bag|
    ensures BagQuantity(bag, bag[i].id) == EntryQuantity(bag[i].entry)
  {
    PrefixQuantityOfEntry(bag, i, |bag|);
  }

  lemma {:induction false} PrefixQuantityOfEntry(bag: Bag, i: nat, n: nat)
    requires DistinctIds(bag)
    requires i < n <= |bag|
    ensures PrefixQuantity(bag, n, bag[i].id) == EntryQuantity(bag[i].entry)
  {
    if i == n - 1 {
      PrefixQuantityAbsent(bag, n - 1, bag[i].id);
    } else {
      PrefixQuantityOfEntry(bag, i, n - 1);
    }
  }

  /** A product absent from the bag has quantity zero. */
  lemma BagQuantityAbsent(bag: Bag, p: ProductId)
    requires forall k :: 0 <= k < |bag| ==> bag[k].id != p
    ensures BagQuantity(bag, p) == 0
  {
    PrefixQuantityAbsent(bag, |bag|, p);
  }

  lemma {:induction false} PrefixQuantityAbsent(bag: Bag, n: nat, p: ProductId)
    requires n <= |bag|
    requires forall k :: 0 <= k < n ==> bag[k].id != p
    ensures PrefixQuantity(bag, n, p) == 0
  {
    if n != 0 {
      PrefixQuantityAbsent(bag, n - 1, p);
    }
  }

  // ---------------------------------------------------------------------
  // Resolving products against the catalog
  // ---------------------------------------------------------------------

  /**
   * The index of the first entry whose product is not in the catalog, or
   * `|bag|` when every product resolves: the point where the line-item loop
   * meets `Product.DoesNotExist`.
   */
  function MissingIndex(bag: Bag, catalog: set<ProductId>): (k: nat)
    ensures k <= |bag|
    ensures forall j :: 0 <= j < k ==> bag[j].id in catalog
    ensures k < |bag| ==> bag[k].id !in catalog
  {
    if bag == [] || bag[0].id !in catalog then 0
    else 1 + MissingIndex(bag[1..], catalog)
  }

  // ---------------------------------------------------------------------
  // Where the line-item loop stops
  // ---------------------------------------------------------------------

  /** How the line-item loop over a bag ends. */
  datatype ItemsOutcome =
    | AllSaved                    // every entry's line items were saved
    | ProductMissing(id: ProductId)  // `Product.objects.get` raised `DoesNotExist` for `id`
    | SaveFailed                  // an `order_line_item.save()` raised

  /** The saves the loop gets to: the line items of every entry before the first unknown product. */
  function Attempted(bag: Bag, catalog: set<ProductId>): seq<LineItem> {
    ExpandPrefix(bag, MissingIndex(bag, catalog))
  }

  /**
   * Whether one of those saves raises. `saveFailsAt` is the position, in
   * saving order, of the first save the database would refuse (`None`: it
   * refuses none).
   */
  predicate SaveFails(bag: Bag, catalog: set<ProductId>, saveFailsAt: Option<nat>) {
    saveFailsAt.Some? && saveFailsAt.value < |Attempted(bag, catalog)|
  }

  /** The line items saved by the time the loop stops. */
  function ItemsSaved(bag: Bag, catalog: set<ProductId>, saveFailsAt: Option<nat>): seq<LineItem> {
    if SaveFails(bag, catalog, saveFailsAt) then Attempted(bag, catalog)[..saveFailsAt.value]
    else Attempted(bag, catalog)
  }

  /** The first failure the loop meets, if any. */
  function LoopOutcome(bag: Bag, catalog: set<ProductId>, saveFailsAt: Option<nat>): ItemsOutcome {
    if SaveFails(bag, catalog, saveFailsAt) then SaveFailed
    else if MissingIndex(bag, catalog) < |bag| then ProductMissing(bag[MissingIndex(bag, catalog)].id)
    else AllSaved
  }

  /** Expanding more entries only adds line items at the end. */
  lemma {:induction false} ExpandPrefixGrows(bag: Bag, m: nat, n: nat)
    requires m <= n <= |bag|
    ensures ExpandPrefix(bag, m) <= ExpandPrefix(bag, n)
    decreases n
  {
    if m < n {
      ExpandPrefixGrows(bag, m, n - 1);
    }
  }

  /**
   * The loop saves a prefix of the bag's line items, and all of them exactly
   * when every product resolves and no save raises; a refused save cuts the
   * prefix just before it.
   */
  lemma ItemsSavedIsPrefix(bag: Bag, catalog: set<ProductId>, saveFailsAt: Option<nat>)
    ensures ItemsSaved(bag, catalog, saveFailsAt) <= Expand(bag)
    ensures LoopOutcome(bag, catalog, saveFailsAt) == AllSaved <==>
      MissingIndex(bag, catalog) == |bag| && (saveFailsAt.None? || saveFailsAt.value >= |Expand(bag)|)
    ensures LoopOutcome(bag, catalog, saveFailsAt) == AllSaved ==> ItemsSaved(bag, catalog, saveFailsAt) == Expand(bag)
    ensures LoopOutcome(bag, catalog, saveFailsAt) == SaveFailed ==>
      |ItemsSaved(bag, catalog, saveFailsAt)| == saveFailsAt.value < |Expand(bag)|
  {
    ExpandPrefixGrows(bag, MissingIndex(bag, catalog), |bag|);
  }

  /**
   * A save failing inside entry `i` cuts the attempted saves inside that
   * entry's line items: what is kept is everything before the entry and the
   * entry's items before the failing one.
   */
  lemma {:induction false} FailureCut(bag: Bag, i: nat, stop: nat, f: nat)
    requires i < stop <= |bag|
    requires |ExpandPrefix(bag, i)| <= f < |ExpandPrefix(bag, i)| + |EntryItems(bag[i])|
    ensures f < |ExpandPrefix(bag, stop)|
    ensures ExpandPrefix(bag, stop)[..f]
         == ExpandPrefix(bag, i) + EntryItems(bag[i])[..f - |ExpandPrefix(bag, i)|]
    decreases stop
  {
    assert ExpandPrefix(bag, stop) == ExpandPrefix(bag, stop - 1) + EntryItems(bag[stop - 1]);
    if stop == i + 1 {
      TakeInSecond(ExpandPrefix(bag, i), EntryItems(bag[i]), f);
    } else {
      FailureCut(bag, i, stop - 1, f);
      TakeInFirst(ExpandPrefix(bag, stop - 1), EntryItems(bag[stop - 1]), f);
    }
  }

  /**
   * The loop reaches entry `i` with no save refused and entry `i` is the
   * first unknown product (or the end of the bag): it saved exactly the
   * items of the entries before `i`.
   */
  lemma OutcomeAtMissing(bag: Bag, catalog: set<ProductId>, saveFailsAt: Option<nat>, i: nat)
    requires i <= |bag| && forall j :: 0 <= j < i ==> bag[j].id in catalog
    requires i == |bag| || bag[i].id !in catalog
    requires saveFailsAt.None? || |ExpandPrefix(bag, i)| <= saveFailsAt.value
    ensures i == MissingIndex(bag, catalog)
    ensures LoopOutcome(bag, catalog, saveFailsAt) == if i < |bag| then ProductMissing(bag[i].id) else AllSaved
    ensures ItemsSaved(bag, catalog, saveFailsAt) == ExpandPrefix(bag, i)
  {
  }

  /**
   * The loop reaches entry `i`, whose product resolves, and the first
   * refused save is among that entry's items: it saved the items of the
   * earlier entries and this entry's items before the refused one.
   */
  lemma OutcomeAtFailure(bag: Bag, catalog: set<ProductId>, saveFailsAt: Option<nat>, i: nat)
    requires i < |bag| && forall j :: 0 <= j <= i ==> bag[j].id in catalog
    requires saveFailsAt.Some?
    requires |ExpandPrefix(bag, i)| <= saveFailsAt.value < |ExpandPrefix(bag, i)| + |EntryItems(bag[i])|
    ensures LoopOutcome(bag, catalog, saveFailsAt) == SaveFailed
    ensures ItemsSaved(bag, catalog, saveFailsAt)
         == ExpandPrefix(bag, i) + EntryItems(bag[i])[..saveFailsAt.value - |ExpandPrefix(bag, i)|]
  {
    FailureCut(bag, i, MissingIndex(bag, catalog), saveFailsAt.value);
  }

  lemma TakeInFirst<T>(a: seq<T>, b: seq<T>, f: nat)
    requires f <= |a|
    ensures (a + b)[..f] == a[..f]
  {
  }

  lemma TakeInSecond<T>(a: seq<T>, b: seq<T>, f: nat)
    requires |a| <= f <= |a| + |b|
    ensures (a + b)[..f] == a + b[..f - |a|]
  {
  }
}

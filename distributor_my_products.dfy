/** The distributor's allocated-products page: the summary of stock received from
    head office, the per-product enrichment, the available-units card, the search and
    the pages of 12. */
module DistributorMyProducts {
  import opened Js
  import opened Seqs
  import opened Text
  import opened Records
  import opened CatalogSearch
  import ProductSelector

  const PageSize: int := 12

  // ---------------------------------------------------------------------------
  // The incoming-stock summary

  /** What the summary records per product: the quantity received and the latest invoice date. */
  datatype Receipt = Receipt(totalQty: int, lastDate: Option<int>)

  /** `{ totalQty: 0, lastDate: null }`. */
  const NoReceipt: Receipt := Receipt(0, None)

  /** `item.productID?._id || item.productID || item.itemCode`; "" means the item has no key. */
  function ItemKey(it: InvoiceItem): string {
    StrOr(it.productId, it.itemCode)
  }

  /** Only invoices addressed to the receiver and created by head office count. */
  predicate Contributes(inv: Invoice, target: string) {
    inv.toUserId == target && inv.createdByRole == CompanyRole
  }

  /** One item's update of its accumulator: the quantity adds up, the date moves forward. */
  function Step(r: Receipt, qty: int, date: int): Receipt {
    Receipt(r.totalQty + qty, if r.lastDate.None? || date > r.lastDate.value then Some(date) else r.lastDate)
  }

  /** `summary.get(key) || { totalQty: 0, lastDate: null }`. */
  function Get(summary: map<string, Receipt>, key: string): Receipt {
    if key in summary then summary[key] else NoReceipt
  }

  /** The inner `forEach` over an invoice's items, as a fold over a prefix. */
  function AddItems(summary: map<string, Receipt>, items: seq<InvoiceItem>, date: int): map<string, Receipt>
    decreases |items|
  {
    if items == [] then summary
    else
      Record(AddItems(summary, items[..|items| - 1], date), items[|items| - 1], date)
  }

  /** One item of the inner loop: an item with a key updates that key's record. */
  function Record(summary: map<string, Receipt>, it: InvoiceItem, date: int): map<string, Receipt> {
    if ItemKey(it) == "" then summary else summary[ItemKey(it) := Step(Get(summary, ItemKey(it)), ItemQty(it), date)]
  }

  /** The outer `forEach` over the invoices, as a fold over a prefix. */
  function AddInvoices(invoices: seq<Invoice>, target: string, now: int): map<string, Receipt>
    decreases |invoices|
  {
    if invoices == [] then map[]
    else
      var s := AddInvoices(invoices[..|invoices| - 1], target, now);
      var inv := invoices[|invoices| - 1];
      if Contributes(inv, target) then AddItems(s, inv.items, InvoiceDateOf(inv, now)) else s
  }

  /** The map `summarizeIncomingProducts` returns. */
  function SummarizeIncoming(invoices: seq<Invoice>, receiverId: string, now: int): map<string, Receipt> {
    if receiverId == "" then map[] else AddInvoices(invoices, receiverId, now)
  }

  /** `summarizeIncomingProducts`: the nested loops that update the map in place. */
  method SummarizeIncomingProducts(invoices: seq<Invoice>, receiverId: string, now: int) returns (summary: map<string, Receipt>)
    ensures summary == SummarizeIncoming(invoices, receiverId, now)
  {
    summary := map[];
    if receiverId == "" {
      return;
    }
    var i := 0;
    while i < |invoices|
      invariant 0 <= i <= |invoices|
      invariant summary == AddInvoices(invoices[..i], receiverId, now)
    {
      var inv := invoices[i];
      assert invoices[..i + 1][..i] == invoices[..i];
      if inv.toUserId == receiverId && inv.createdByRole == CompanyRole {
        summary := AddInvoiceItems(summary, inv.items, InvoiceDateOf(inv, now));
      }
      i := i + 1;
    }
    assert invoices[..|invoices|] == invoices;
  }

  /** The inner `forEach`: each keyed item adds its quantity to its product's record and
      moves the record's date forward. */
  method AddInvoiceItems(summary0: map<string, Receipt>, items: seq<InvoiceItem>, date: int) returns (summary: map<string, Receipt>)
    ensures summary == AddItems(summary0, items, date)
  {
    summary := summary0;
    var j := 0;
    while j < |items|
      invariant 0 <= j <= |items|
      invariant summary == AddItems(summary0, items[..j], date)
    {
      var it := items[j];
      assert items[..j + 1][..j] == items[..j];
      assert AddItems(summary0, items[..j + 1], date) == Record(summary, it, date);
      var key := if it.productId != "" then it.productId else it.itemCode;
      assert key == ItemKey(it);
      if key != "" {
        var existing := if key in summary then summary[key] else NoReceipt;
        var lastDate := if existing.lastDate.None? || date > existing.lastDate.value then Some(date) else existing.lastDate;
        assert Receipt(existing.totalQty + ItemQty(it), lastDate) == Step(Get(summary, key), ItemQty(it), date);
        summary := summary[key := Receipt(existing.totalQty + ItemQty(it), lastDate)];
      }
      j := j + 1;
    }
    assert items[..|items|] == items;
  }

  // ---------------------------------------------------------------------------
  // What the summary means

  /** One contributing item, seen from its product: its quantity and its invoice date. */
  datatype Contribution = Contribution(qty: int, date: int)

  /** The contributions of one invoice's items to product `key`. */
  function ItemContribs(items: seq<InvoiceItem>, key: string, date: int): seq<Contribution>
    decreases |items|
  {
    if items == [] then []
    else
      var it := items[|items| - 1];
      ItemContribs(items[..|items| - 1], key, date) +
        (if ItemKey(it) != "" && ItemKey(it) == key then [Contribution(ItemQty(it), date)] else [])
  }

  /** Every contribution to product `key`, in invoice and item order. */
  function Contribs(invoices: seq<Invoice>, target: string, now: int, key: string): seq<Contribution>
    decreases |invoices|
  {
    if invoices == [] then []
    else
      var inv := invoices[|invoices| - 1];
      Contribs(invoices[..|invoices| - 1], target, now, key) +
        (if Contributes(inv, target) then ItemContribs(inv.items, key, InvoiceDateOf(inv, now)) else [])
  }

  function SumQty(cs: seq<Contribution>): int
    decreases |cs|
  {
    if cs == [] then 0 else SumQty(cs[..|cs| - 1]) + cs[|cs| - 1].qty
  }

  /** `d` is the latest date among the contributions. */
  predicate IsLatest(cs: seq<Contribution>, d: int) {
    (exists i :: 0 <= i < |cs| && cs[i].date == d) && forall i :: 0 <= i < |cs| ==> cs[i].date <= d
  }

  /** The accumulator after absorbing contributions one by one. */
  function Absorb(r: Receipt, cs: seq<Contribution>): Receipt
    decreases |cs|
  {
    if cs == [] then r else Step(Absorb(r, cs[..|cs| - 1]), cs[|cs| - 1].qty, cs[|cs| - 1].date)
  }

  /** From the empty accumulator, the total is the sum of the quantities and the date is
      the latest one, present exactly when something was absorbed. */
  lemma {:induction false} AbsorbMeaning(cs: seq<Contribution>)
    ensures Absorb(NoReceipt, cs).totalQty == SumQty(cs)
    ensures Absorb(NoReceipt, cs).lastDate.None? <==> cs == []
    ensures Absorb(NoReceipt, cs).lastDate.Some? ==> IsLatest(cs, Absorb(NoReceipt, cs).lastDate.value)
    decreases |cs|
  {
    if cs != [] {
      var pre := cs[..|cs| - 1];
      var c := cs[|cs| - 1];
      AbsorbMeaning(pre);
      var r := Absorb(NoReceipt, pre);
      assert forall i :: 0 <= i < |pre| ==> cs[i] == pre[i];
      if r.lastDate.None? {
        assert pre == [];
        assert cs[0] == c;
      } else if c.date > r.lastDate.value {
        assert cs[|cs| - 1].date == c.date;
      } else {
        var d := r.lastDate.value;
        var k :| 0 <= k < |pre| && pre[k].date == d;
        assert cs[k].date == d;
      }
    }
  }

  lemma {:induction false} AbsorbConcat(r: Receipt, a: seq<Contribution>, b: seq<Contribution>)
    ensures Absorb(r, a + b) == Absorb(Absorb(r, a), b)
    decreases |b|
  {
    if b == [] {
      assert a + b == a;
    } else {
      assert (a + b)[..|a + b| - 1] == a + b[..|b| - 1];
      assert (a + b)[|a + b| - 1] == b[|b| - 1];
      AbsorbConcat(r, a, b[..|b| - 1]);
    }
  }

  /** What the item loop does to one key: it is present afterwards when it was before or
      an item contributed to it, and its accumulator has absorbed those contributions. */
  lemma {:induction false} AddItemsEntry(summary: map<string, Receipt>, items: seq<InvoiceItem>, date: int, key: string)
    ensures key in AddItems(summary, items, date) <==> key in summary || ItemContribs(items, key, date) != []
    ensures Get(AddItems(summary, items, date), key) == Absorb(Get(summary, key), ItemContribs(items, key, date))
    decreases |items|
  {
    if items != [] {
      var pre := items[..|items| - 1];
      var it := items[|items| - 1];
      AddItemsEntry(summary, pre, date, key);
      var before := AddItems(summary, pre, date);
      assert AddItems(summary, items, date) == Record(before, it, date);
      RecordEntry(before, it, date, key);
      var cs := ItemContribs(pre, key, date);
      if ItemKey(it) != "" && ItemKey(it) == key {
        var c := Contribution(ItemQty(it), date);
        assert ItemContribs(items, key, date) == cs + [c];
        assert (cs + [c])[..|cs + [c]| - 1] == cs;
        assert Absorb(Get(summary, key), cs + [c]) == Step(Absorb(Get(summary, key), cs), c.qty, c.date);
      } else {
        assert ItemContribs(items, key, date) == cs + [];
        assert cs + [] == cs;
      }
    }
  }

  /** One item touches only its own key's record. */
  lemma {:induction false} RecordEntry(summary: map<string, Receipt>, it: InvoiceItem, date: int, key: string)
    ensures var hit := ItemKey(it) != "" && ItemKey(it) == key;
      && (key in Record(summary, it, date) <==> key in summary || hit)
      && Get(Record(summary, it, date), key) == if hit then Step(Get(summary, key), ItemQty(it), date) else Get(summary, key)
  {
  }

  lemma {:induction false} AddInvoicesEntry(invoices: seq<Invoice>, target: string, now: int, key: string)
    ensures key in AddInvoices(invoices, target, now) <==> Contribs(invoices, target, now, key) != []
    ensures Get(AddInvoices(invoices, target, now), key) == Absorb(NoReceipt, Contribs(invoices, target, now, key))
    decreases |invoices|
  {
    if invoices != [] {
      var pre := invoices[..|invoices| - 1];
      var inv := invoices[|invoices| - 1];
      AddInvoicesEntry(pre, target, now, key);
      var cs := Contribs(pre, target, now, key);
      if Contributes(inv, target) {
        var date := InvoiceDateOf(inv, now);
        AddItemsEntry(AddInvoices(pre, target, now), inv.items, date, key);
        AbsorbConcat(NoReceipt, cs, ItemContribs(inv.items, key, date));
      } else {
        assert Contribs(invoices, target, now, key) == cs + [];
        assert cs + [] == cs;
      }
    }
  }

  /** The summary: empty without a receiver; otherwise a product key is present exactly
      when some item of a head-office invoice to the receiver carries it (so "" never is),
      its `totalQty` is the sum of those items' quantities and its `lastDate` the latest of
      their invoice dates. */
  lemma {:induction false} IncomingSummaryMeaning(invoices: seq<Invoice>, receiverId: string, now: int, key: string)
    ensures receiverId == "" ==> SummarizeIncoming(invoices, receiverId, now) == map[]
    ensures receiverId != "" ==>
      var summary := SummarizeIncoming(invoices, receiverId, now);
      var cs := Contribs(invoices, receiverId, now, key);
      && (key in summary <==> cs != [])
      && (key in summary ==>
            && summary[key].totalQty == SumQty(cs)
            && summary[key].lastDate.Some?
            && IsLatest(cs, summary[key].lastDate.value))
    ensures "" !in SummarizeIncoming(invoices, receiverId, now)
  {
    if receiverId != "" {
      AddInvoicesEntry(invoices, receiverId, now, key);
      AbsorbMeaning(Contribs(invoices, receiverId, now, key));
      AddInvoicesEntry(invoices, receiverId, now, "");
      NoContribsForEmptyKey(invoices, receiverId, now);
    }
  }

  lemma {:induction false} NoContribsForEmptyKey(invoices: seq<Invoice>, target: string, now: int)
    ensures Contribs(invoices, target, now, "") == []
    decreases |invoices|
  {
    if invoices != [] {
      var inv := invoices[|invoices| - 1];
      NoContribsForEmptyKey(invoices[..|invoices| - 1], target, now);
      if Contributes(inv, target) {
        NoItemContribsForEmptyKey(inv.items, InvoiceDateOf(inv, now));
      }
    }
  }

  lemma {:induction false} NoItemContribsForEmptyKey(items: seq<InvoiceItem>, date: int)
    ensures ItemContribs(items, "", date) == []
    decreases |items|
  {
    if items != [] {
      NoItemContribsForEmptyKey(items[..|items| - 1], date);
    }
  }

  /** An invoice from anyone but head office, or to anyone but the receiver, changes nothing. */
  lemma {:induction false} OtherInvoicesIgnored(invoices: seq<Invoice>, inv: Invoice, receiverId: string, now: int)
    requires !Contributes(inv, receiverId)
    ensures SummarizeIncoming(invoices + [inv], receiverId, now) == SummarizeIncoming(invoices, receiverId, now)
  {
    assert (invoices + [inv])[..|invoices + [inv]| - 1] == invoices;
  }

  // ---------------------------------------------------------------------------
  // Available units on this page

  /** `calculateAvailableUnits` of this page: a size of 0 or a non-number counts as 1. */
  function AvailableUnitsHere(product: Option<Product>, availablePieces: Num): (r: ProductSelector.Units)
    ensures var pieces := TruthyOr(availablePieces, 0);
      && (product.None? || pieces <= 0 ==> r == ProductSelector.Units(0, 0, 0, 0))
      && (product.Some? && pieces > 0 ==>
            && r.pieces == pieces
            && ProductSelector.FloorQuotient(pieces, 12, r.dozens)
            && ProductSelector.FloorQuotient(pieces, TruthyOr(product.value.boxQuantity, 1), r.boxes)
            && ProductSelector.FloorQuotient(pieces, TruthyOr(product.value.cartonQuantity, 1), r.cartons))
  {
    var pieces := TruthyOr(availablePieces, 0);
    if product.None? || pieces <= 0 then ProductSelector.Units(0, 0, 0, 0)
    else
      var boxQty := TruthyOr(product.value.boxQuantity, 1);
      var cartonQty := TruthyOr(product.value.cartonQuantity, 1);
      ProductSelector.FloorDivision(pieces, 12);
      ProductSelector.FloorDivision(pieces, boxQty);
      ProductSelector.FloorDivision(pieces, cartonQty);
      ProductSelector.Units(
        pieces,
        pieces / 12,
        if boxQty > 0 then pieces / boxQty else 0,
        if cartonQty > 0 then pieces / cartonQty else 0)
  }

  /** A box size of 0 or a missing one makes every piece a box here; the invoice builder's
      version agrees with this one except that it keeps a size of 0 and then shows no boxes
      (and the same for cartons). */
  lemma {:induction false} AvailableUnitsDefaults(p: Product, n: int)
    requires n > 0
    ensures var here := AvailableUnitsHere(Some(p), Finite(n));
      var builder := ProductSelector.AvailableUnits(Some(p), n);
      && here.pieces == builder.pieces == n
      && here.dozens == builder.dozens
      && (!Truthy(p.boxQuantity) ==> here.boxes == n)
      && (p.boxQuantity != Finite(0) ==> here.boxes == builder.boxes)
      && (p.boxQuantity == Finite(0) ==> builder.boxes == 0)
      && (!Truthy(p.cartonQuantity) ==> here.cartons == n)
      && (p.cartonQuantity != Finite(0) ==> here.cartons == builder.cartons)
      && (p.cartonQuantity == Finite(0) ==> builder.cartons == 0)
  {
  }

  // ---------------------------------------------------------------------------
  // Enrichment, search and pages

  /** An allocated product as the page lists it: `{ ...product, receivedQty, lastReceipt }`. */
  datatype Listed = Listed(product: Product, receivedQty: int, lastReceipt: Option<int>)

  /** `incomingSummary.get(product._id) || incomingSummary.get(product.productID?._id)`. */
  function Lookup(summary: map<string, Receipt>, p: Product): Option<Receipt> {
    if p.id in summary then Some(summary[p.id])
    else if p.productRef in summary then Some(summary[p.productRef])
    else None
  }

  /** `allocation.qty || 0`, with `product.allocation || {}`. */
  function AllocatedQty(p: Product): int {
    if p.allocation.Some? then TruthyOr(p.allocation.value.qty, 0) else 0
  }

  /** The `map` step of the enrichment. */
  function Enrich(summary: map<string, Receipt>, p: Product): Listed {
    var received := Lookup(summary, p).GetOr(NoReceipt);
    Listed(p, if received.totalQty != 0 then received.totalQty else AllocatedQty(p), received.lastDate)
  }

  function EnrichAll(summary: map<string, Receipt>, products: seq<Product>): (r: seq<Listed>)
    ensures |r| == |products|
    ensures forall i :: 0 <= i < |products| ==> r[i] == Enrich(summary, products[i])
  {
    seq(|products|, i requires 0 <= i < |products| => Enrich(summary, products[i]))
  }

  /** The key a product's receipts are found under: its own id when head office sent it
      under that id, else the id of the product it refers to. */
  function ReceiptKey(invoices: seq<Invoice>, receiverId: string, now: int, p: Product): string {
    if Contribs(invoices, receiverId, now, p.id) != [] then p.id else p.productRef
  }

  /** A listed product's received quantity is what head office sent under its key when
      that sum is nonzero, and its allocated quantity otherwise; it has a last receipt
      exactly when something was sent, and that is the latest invoice date. */
  lemma {:induction false} ReceivedQtyMeaning(invoices: seq<Invoice>, receiverId: string, now: int, p: Product)
    requires receiverId != ""
    ensures var l := Enrich(SummarizeIncoming(invoices, receiverId, now), p);
      var cs := Contribs(invoices, receiverId, now, ReceiptKey(invoices, receiverId, now, p));
      && l.product == p
      && l.receivedQty == (if SumQty(cs) != 0 then SumQty(cs) else AllocatedQty(p))
      && (l.lastReceipt.Some? <==> cs != [])
      && (l.lastReceipt.Some? ==> IsLatest(cs, l.lastReceipt.value))
  {
    IncomingSummaryMeaning(invoices, receiverId, now, p.id);
    IncomingSummaryMeaning(invoices, receiverId, now, p.productRef);
    AbsorbMeaning([]);
  }

  function ListedProduct(): Listed -> Product {
    (l: Listed) => l.product
  }

  /** The `filtered` list. */
  function Filtered(listed: seq<Listed>, search: string): seq<Listed> {
    SearchFiltered(listed, ListedProduct(), search)
  }

  /** A white-space search shows every product; otherwise the page keeps, in order, exactly
      the products whose lowercased name or item number contains the search key. */
  lemma {:induction false} FilteredMeaning(listed: seq<Listed>, search: string)
    ensures AllWhitespace(search) ==> Filtered(listed, search) == listed
    ensures IsSubsequence(Filtered(listed, search), listed)
    ensures forall i :: 0 <= i < |Filtered(listed, search)| ==> MatchesQuery(Filtered(listed, search)[i].product, SearchKey(search))
    ensures forall i :: 0 <= i < |listed| && MatchesQuery(listed[i].product, SearchKey(search)) ==> listed[i] in Filtered(listed, search)
    ensures forall l :: multiset(Filtered(listed, search))[l] ==
                          if MatchesQuery(l.product, SearchKey(search)) then multiset(listed)[l] else 0
  {
    SearchFilteredMeaning(listed, ListedProduct(), search);
    SearchFilteredCounts(listed, ListedProduct(), search);
  }

  /** The `paged` slice. */
  function Paged(filtered: seq<Listed>, page: int): seq<Listed> {
    Page(filtered, page, PageSize)
  }

  /** A page holds at most 12 products, the ones from index `(page - 1) * 12` on. */
  lemma {:induction false} PagedContents(filtered: seq<Listed>, page: int)
    requires page >= 1
    ensures |Paged(filtered, page)| <= PageSize
    ensures forall i :: 0 <= i < |Paged(filtered, page)| ==> Paged(filtered, page)[i] == filtered[(page - 1) * PageSize + i]
  {
    PageContents(filtered, page, PageSize);
  }
}

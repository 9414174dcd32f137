/** The dealer's invoice list: a text and date-range filter over the invoices shared
    with the dealer, the per-invoice quantity total and product summary, and the page
    of ten rows shown. */
module DealerInvoices {
  import opened Js
  import opened Seqs
  import opened Text
  import opened Records

  const PageSize: int := 10

  /** The filter form. An empty date input is no bound; a filled one is the timestamp
      `new Date(value)` denotes. */
  datatype Filters = Filters(query: string, from: Option<int>, to: Option<int>)

  /** `{ query: "", from: "", to: "" }`. */
  const DefaultFilters: Filters := Filters("", None, None)

  /** The name an item is searched by: `it.itemName || it.productID?.name || ""`. */
  function ItemName(it: InvoiceItem): string {
    StrOr(it.itemName, it.productName)
  }

  function ItemNames(items: seq<InvoiceItem>): (r: seq<string>)
    ensures |r| == |items| && forall j :: 0 <= j < |items| ==> r[j] == ItemName(items[j])
  {
    seq(|items|, j requires 0 <= j < |items| => ItemName(items[j]))
  }

  function NonEmpty(s: string): bool {
    s != ""
  }

  /** The texts an invoice is searched by: the distributor's name, then every item name,
      with the empty ones dropped (`.filter(Boolean)`). */
  function SearchValues(inv: Invoice): seq<string> {
    Filter(NonEmpty, [inv.fromUserName] + ItemNames(inv.items))
  }

  /** `q` occurs in the lowercased `s`. */
  predicate NameMatches(s: string, q: string) {
    Contains(ToLower(s), q)
  }

  /** `!search || values.some(value => value.toLowerCase().includes(search))`. */
  predicate MatchesText(inv: Invoice, search: string) {
    var values := SearchValues(inv);
    search == "" || exists i :: 0 <= i < |values| && NameMatches(values[i], search)
  }

  /** The reading of the text filter given to users: the distributor or one of the
      products mentions the query. */
  predicate MentionsQuery(inv: Invoice, q: string) {
    NameMatches(inv.fromUserName, q) || exists j :: 0 <= j < |inv.items| && NameMatches(ItemName(inv.items[j]), q)
  }

  /** A date lies within the optional bounds, both ends included. */
  predicate InBounds(from: Option<int>, to: Option<int>, d: int) {
    (from.Some? ==> from.value <= d) && (to.Some? ==> d <= to.value)
  }

  /** The filter callback of `applyFilters`. */
  predicate Kept(inv: Invoice, filters: Filters, now: int) {
    var d := InvoiceDateOf(inv, now);
    && MatchesText(inv, SearchKey(filters.query))
    && (filters.from.None? || d >= filters.from.value)
    && (filters.to.None? || d <= filters.to.value)
  }

  function Keeps(filters: Filters, now: int): Invoice -> bool {
    inv => Kept(inv, filters, now)
  }

  /** `applyFilters(invoices, filters)`, with the clock passed in. */
  function ApplyFilters(invoices: seq<Invoice>, filters: Filters, now: int): seq<Invoice> {
    Filter(Keeps(filters, now), invoices)
  }

  /** Dropping empty texts does not change which invoices a nonempty query matches:
      it matches exactly the invoices whose distributor or some product mentions it. */
  lemma {:induction false} TextMatchIff(inv: Invoice, q: string)
    requires q != ""
    ensures MatchesText(inv, q) <==> MentionsQuery(inv, q)
  {
    var all := [inv.fromUserName] + ItemNames(inv.items);
    var values := SearchValues(inv);
    EmptyContainsOnlyEmpty(q);
    FilterKeepsPassing(NonEmpty, all);
    if MatchesText(inv, q) {
      var i :| 0 <= i < |values| && NameMatches(values[i], q);
      assert values[i] in all;
      var k :| 0 <= k < |all| && all[k] == values[i];
      if k > 0 {
        assert all[k] == ItemName(inv.items[k - 1]);
      }
    }
    if MentionsQuery(inv, q) {
      if NameMatches(inv.fromUserName, q) {
        assert all[0] == inv.fromUserName && NonEmpty(all[0]);
        assert all[0] in values;
      } else {
        var j :| 0 <= j < |inv.items| && NameMatches(ItemName(inv.items[j]), q);
        assert all[j + 1] == ItemName(inv.items[j]) && NonEmpty(all[j + 1]);
        assert all[j + 1] in values;
      }
    }
  }

  /** An invoice passes the filter exactly when it mentions the query (any invoice does
      when the query is white space) and its date lies within the bounds, both ends
      included; an empty bound imposes nothing. */
  lemma {:induction false} KeptIff(inv: Invoice, filters: Filters, now: int)
    ensures Kept(inv, filters, now) <==>
      && (AllWhitespace(filters.query) || MentionsQuery(inv, SearchKey(filters.query)))
      && InBounds(filters.from, filters.to, InvoiceDateOf(inv, now))
  {
    KeptSplits(inv, filters, now);
    SearchedTextIff(inv, filters.query);
  }

  lemma {:induction false} KeptSplits(inv: Invoice, filters: Filters, now: int)
    ensures Kept(inv, filters, now) <==>
      MatchesText(inv, SearchKey(filters.query)) && InBounds(filters.from, filters.to, InvoiceDateOf(inv, now))
  {
  }

  lemma {:induction false} SearchedTextIff(inv: Invoice, search: string)
    ensures MatchesText(inv, SearchKey(search)) <==> AllWhitespace(search) || MentionsQuery(inv, SearchKey(search))
  {
    var q := SearchKey(search);
    SearchKeyEmptyIff(search);
    if q != "" {
      TextMatchIff(inv, q);
    } else {
      EmptySearchMatches(inv, q);
    }
  }

  lemma {:induction false} EmptySearchMatches(inv: Invoice, q: string)
    requires q == ""
    ensures MatchesText(inv, q)
  {
  }

  /** The filter keeps, in their order, exactly the invoices that pass `KeptIff`'s test. */
  lemma {:induction false} ApplyFiltersMeaning(invoices: seq<Invoice>, filters: Filters, now: int)
    ensures IsSubsequence(ApplyFilters(invoices, filters, now), invoices)
    ensures forall i :: 0 <= i < |invoices| ==>
      (invoices[i] in ApplyFilters(invoices, filters, now) <==>
        && (AllWhitespace(filters.query) || MentionsQuery(invoices[i], SearchKey(filters.query)))
        && InBounds(filters.from, filters.to, InvoiceDateOf(invoices[i], now)))
  {
    FilterIsSubsequence(Keeps(filters, now), invoices);
    FilterMembership(Keeps(filters, now), invoices);
    forall i | 0 <= i < |invoices|
      ensures Kept(invoices[i], filters, now) <==>
        && (AllWhitespace(filters.query) || MentionsQuery(invoices[i], SearchKey(filters.query)))
        && InBounds(filters.from, filters.to, InvoiceDateOf(invoices[i], now))
    {
      KeptIff(invoices[i], filters, now);
    }
  }

  /** The filter keeps each passing invoice as often as the list holds it, and no other. */
  lemma {:induction false} ApplyFiltersCounts(invoices: seq<Invoice>, filters: Filters, now: int)
    ensures forall inv :: multiset(ApplyFilters(invoices, filters, now))[inv] ==
                            if && (AllWhitespace(filters.query) || MentionsQuery(inv, SearchKey(filters.query)))
                               && InBounds(filters.from, filters.to, InvoiceDateOf(inv, now))
                            then multiset(invoices)[inv] else 0
  {
    FilterMultiplicity(Keeps(filters, now), invoices);
    forall inv
      ensures Kept(inv, filters, now) <==>
        && (AllWhitespace(filters.query) || MentionsQuery(inv, SearchKey(filters.query)))
        && InBounds(filters.from, filters.to, InvoiceDateOf(inv, now))
    {
      KeptIff(inv, filters, now);
    }
  }

  /** The default filters keep every invoice. */
  lemma {:induction false} DefaultFiltersKeepAll(invoices: seq<Invoice>, now: int)
    ensures ApplyFilters(invoices, DefaultFilters, now) == invoices
  {
    forall i | 0 <= i < |invoices|
      ensures Keeps(DefaultFilters, now)(invoices[i])
    {
      KeptByDefault(invoices[i], now);
    }
    FilterKeepsAll(Keeps(DefaultFilters, now), invoices);
  }

  lemma {:induction false} KeptByDefault(inv: Invoice, now: int)
    ensures Kept(inv, DefaultFilters, now)
  {
    SearchKeyEmptyIff("");
    assert SearchKey(DefaultFilters.query) == "";
    EmptySearchMatches(inv, "");
  }

  /** `items.reduce((sum, item) => sum + Number(item.qty || 0), 0)`. */
  function TotalQty(items: seq<InvoiceItem>): int {
    SumOf(ItemQty, items)
  }

  /** The total is the sum of the item quantities, a missing one counting as 0. */
  lemma {:induction false} TotalQtyMeaning(items: seq<InvoiceItem>, it: InvoiceItem)
    ensures TotalQty([]) == 0
    ensures TotalQty(items + [it]) == TotalQty(items) + (if Truthy(it.qty) then it.qty.n else 0)
    ensures it.qty.NotFinite? ==> TotalQty(items + [it]) == TotalQty(items)
  {
    SumConcat(ItemQty, items, [it]);
    assert [it][1..] == [];
  }

  /** `${name} • ${item.qty} ${uom}`.trim(), with the name falling back to "Product". */
  function EntryText(it: InvoiceItem): string {
    var name := StrOr(it.itemName, StrOr(it.productName, "Product"));
    Trim(name + " • " + NumText(it.qty) + " " + it.uom)
  }

  function EntryTexts(items: seq<InvoiceItem>): (r: seq<string>)
    ensures |r| == |items| && forall j :: 0 <= j < |items| ==> r[j] == EntryText(items[j])
  {
    seq(|items|, j requires 0 <= j < |items| => EntryText(items[j]))
  }

  /** `items.map(...).join(", ") || "—"`. */
  function ProductsSummary(items: seq<InvoiceItem>): string {
    StrOr(Join(EntryTexts(items), ", "), "—")
  }

  /** The summary is the dash exactly for an invoice without items; otherwise it is the
      entries of the items, in order, joined by ", ". */
  lemma {:induction false} ProductsSummaryMeaning(items: seq<InvoiceItem>)
    ensures items == [] <==> ProductsSummary(items) == "—"
    ensures items != [] ==> ProductsSummary(items) == Join(EntryTexts(items), ", ")
  {
    if items != [] {
      SummaryHasBullet(items);
      assert Join(EntryTexts(items), ", ") != "—";
    }
  }

  /** Every entry keeps its bullet, so a summary of at least one item is neither empty
      nor the dash. */
  lemma {:induction false} SummaryHasBullet(items: seq<InvoiceItem>)
    requires items != []
    ensures '•' in Join(EntryTexts(items), ", ")
  {
    var it := items[0];
    var name := StrOr(it.itemName, StrOr(it.productName, "Product"));
    var raw := name + " • " + NumText(it.qty) + " " + it.uom;
    assert raw[|name| + 1] == '•';
    TrimKeeps(raw, |name| + 1);
    var e := EntryText(it);
    var k :| 0 <= k < |e| && e[k] == '•';
    JoinStartsWithFirst(EntryTexts(items), ", ");
    assert Join(EntryTexts(items), ", ")[k] == e[k];
  }

  /** `filtered.slice((page - 1) * pageSize, page * pageSize)`. */
  function Paged(filtered: seq<Invoice>, page: int): seq<Invoice> {
    Page(filtered, page, PageSize)
  }

  /** A page shows at most ten invoices: those from index `(page - 1) * 10` on. */
  lemma {:induction false} PagedContents(filtered: seq<Invoice>, page: int)
    requires page >= 1
    ensures |Paged(filtered, page)| <= PageSize
    ensures forall i :: 0 <= i < |Paged(filtered, page)| ==> Paged(filtered, page)[i] == filtered[(page - 1) * PageSize + i]
    ensures (page - 1) * PageSize < |filtered| ==> Paged(filtered, page) != []
  {
    PageContents(filtered, page, PageSize);
  }
}

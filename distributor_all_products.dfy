/** The distributor's view of the company catalog: a text search combined with a
    sales-unit filter, the reward and carton columns, and the page of twenty rows. */
module DistributorAllProducts {
  import opened Js
  import opened Seqs
  import opened Text
  import opened Records
  import opened CatalogSearch
  import ProductSelector

  const PageSize: int := 20

  /** The option of the unit selector that filters nothing. */
  const AllUnits: string := "ALL"

  /** The filter callback: `(!query || name or itemNo matches) && (uomFilter === "ALL" || salesUom === uomFilter)`. */
  predicate Keep(p: Product, query: string, uomFilter: string) {
    && (query == "" || MatchesQuery(p, query))
    && (uomFilter == AllUnits || p.salesUom == uomFilter)
  }

  function Keeps(query: string, uomFilter: string): Product -> bool {
    p => Keep(p, query, uomFilter)
  }

  /** The `filtered` memo. */
  function Filtered(products: seq<Product>, search: string, uomFilter: string): seq<Product> {
    Filter(Keeps(SearchKey(search), uomFilter), products)
  }

  /** The unit filter "ALL" leaves exactly the search the other catalog pages run. */
  lemma {:induction false} AllUnitsIsSearchOnly(products: seq<Product>, search: string)
    ensures Filtered(products, search, AllUnits) == SearchFiltered(products, Itself(), search)
  {
    var q := SearchKey(search);
    if q == "" {
      forall i | 0 <= i < |products|
        ensures Keeps(q, AllUnits)(products[i])
      {
      }
      FilterKeepsAll(Keeps(q, AllUnits), products);
      assert SearchFiltered(products, Itself(), search) == products;
    } else {
      forall x
        ensures Keeps(q, AllUnits)(x) == Matcher(Itself(), q)(x)
      {
      }
      FilterExt(Keeps(q, AllUnits), Matcher(Itself(), q), products);
      assert SearchFiltered(products, Itself(), search) == Filter(Matcher(Itself(), q), products);
    }
  }

  lemma {:induction false} KeepIff(p: Product, search: string, uomFilter: string)
    ensures Keep(p, SearchKey(search), uomFilter) <==>
      && (AllWhitespace(search) || MatchesQuery(p, SearchKey(search)))
      && (uomFilter == AllUnits || p.salesUom == uomFilter)
  {
    SearchKeyEmptyIff(search);
  }

  /** The filter keeps, in their order, exactly the products that match the search (any
      product for a white-space search) and whose sales unit is the selected one (any
      unit for "ALL"). */
  lemma {:induction false} FilteredMeaning(products: seq<Product>, search: string, uomFilter: string)
    ensures IsSubsequence(Filtered(products, search, uomFilter), products)
    ensures forall i :: 0 <= i < |products| ==>
      (products[i] in Filtered(products, search, uomFilter) <==>
        && (AllWhitespace(search) || MatchesQuery(products[i], SearchKey(search)))
        && (uomFilter == AllUnits || products[i].salesUom == uomFilter))
    ensures uomFilter != AllUnits ==> forall i :: 0 <= i < |Filtered(products, search, uomFilter)| ==>
      Filtered(products, search, uomFilter)[i].salesUom == uomFilter
    ensures forall p :: multiset(Filtered(products, search, uomFilter))[p] ==
                          if && (AllWhitespace(search) || MatchesQuery(p, SearchKey(search)))
                             && (uomFilter == AllUnits || p.salesUom == uomFilter)
                          then multiset(products)[p] else 0
  {
    var f := Keeps(SearchKey(search), uomFilter);
    FilterIsSubsequence(f, products);
    FilterMembership(f, products);
    FilterMultiplicity(f, products);
    forall p
      ensures Keep(p, SearchKey(search), uomFilter) <==>
        && (AllWhitespace(search) || MatchesQuery(p, SearchKey(search)))
        && (uomFilter == AllUnits || p.salesUom == uomFilter)
    {
      KeepIff(p, search, uomFilter);
    }
  }

  /** The rates the reward column tries, in order. */
  function DisplayRates(p: Product): seq<Num> {
    [p.rewardsPerPc, p.rewardsForBox, p.rewardsForCarton, p.rewardsPerDozen]
  }

  /** `product.rewardsPerPc || product.rewardsForBox || product.rewardsForCarton || product.rewardsPerDozen || 0`. */
  function DisplayReward(p: Product): int {
    if Truthy(p.rewardsPerPc) then p.rewardsPerPc.n
    else if Truthy(p.rewardsForBox) then p.rewardsForBox.n
    else if Truthy(p.rewardsForCarton) then p.rewardsForCarton.n
    else TruthyOr(p.rewardsPerDozen, 0)
  }

  /** The column shows the first nonzero rate in the order per piece, box, carton, dozen,
      and 0 exactly when none is set. */
  lemma {:induction false} DisplayRewardMeaning(p: Product)
    ensures DisplayReward(p) == 0 <==> forall k :: 0 <= k < 4 ==> !Truthy(DisplayRates(p)[k])
    ensures forall k :: 0 <= k < 4 && Truthy(DisplayRates(p)[k]) && (forall j :: 0 <= j < k ==> !Truthy(DisplayRates(p)[j])) ==>
      DisplayReward(p) == DisplayRates(p)[k].n
  {
    var rates := DisplayRates(p);
    assert rates[0] == p.rewardsPerPc && rates[1] == p.rewardsForBox;
    assert rates[2] == p.rewardsForCarton && rates[3] == p.rewardsPerDozen;
  }

  /** With a per-piece rate set, the column shows what the invoice builder credits per
      piece; without one it shows a box, carton or dozen rate, while the builder credits
      a piece only the per-piece rate. */
  lemma {:induction false} DisplayRewardAgainstBuilder(p: Product)
    ensures Truthy(p.rewardsPerPc) ==> DisplayReward(p) == ProductSelector.RewardPerUnit(Some(p), Uom.Piece)
    ensures p.rewardsPerPc.NotFinite? && Truthy(p.rewardsForBox) ==>
      DisplayReward(p) == p.rewardsForBox.n && ProductSelector.RewardPerUnit(Some(p), Uom.Piece) == 0
  {
  }

  /** What the carton column shows: a size, or a dash. */
  datatype Display = Amount(n: int) | Dash

  /** `product.cartonQuantity || product.boxQuantity || "—"`. */
  function CartonDisplay(p: Product): Display {
    if Truthy(p.cartonQuantity) then Amount(p.cartonQuantity.n)
    else if Truthy(p.boxQuantity) then Amount(p.boxQuantity.n)
    else Dash
  }

  /** The column shows the pieces per carton the invoice builder converts with; failing
      that, the pieces per box; and a dash only when neither size is set. */
  lemma {:induction false} CartonDisplayMeaning(p: Product)
    ensures CartonDisplay(p) == Dash <==> !Truthy(p.cartonQuantity) && !Truthy(p.boxQuantity)
    ensures Truthy(p.cartonQuantity) ==> CartonDisplay(p) == Amount(ProductSelector.PiecesFromUom(p, Uom.Carton, 1))
    ensures !Truthy(p.cartonQuantity) && Truthy(p.boxQuantity) ==>
      CartonDisplay(p) == Amount(ProductSelector.PiecesFromUom(p, Uom.Box, 1))
    ensures CartonDisplay(p).Amount? ==> CartonDisplay(p).n != 0
  {
    ProductSelector.PiecesFromUomLinear(p, Uom.Carton, 1, 1);
    ProductSelector.PiecesFromUomLinear(p, Uom.Box, 1, 1);
  }

  /** `filtered.slice((page - 1) * pageSize, page * pageSize)`. */
  function Paged(filtered: seq<Product>, page: int): seq<Product> {
    Page(filtered, page, PageSize)
  }

  /** A page shows at most twenty products: those from index `(page - 1) * 20` on. */
  lemma {:induction false} PagedContents(filtered: seq<Product>, page: int)
    requires page >= 1
    ensures |Paged(filtered, page)| <= PageSize
    ensures forall i :: 0 <= i < |Paged(filtered, page)| ==> Paged(filtered, page)[i] == filtered[(page - 1) * PageSize + i]
    ensures (page - 1) * PageSize < |filtered| ==> Paged(filtered, page) != []
  {
    PageContents(filtered, page, PageSize);
  }
}

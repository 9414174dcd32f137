/** The dealer's catalog: the products the distributor made visible, searched by name
    or item number, with a visible-products count and pages of twenty. */
module DealerAllProducts {
  import opened Seqs
  import opened Text
  import opened Records
  import opened CatalogSearch

  const PageSize: int := 20

  /** The `filtered` memo: the list itself for an empty query, else the matching products. */
  function Filtered(products: seq<Product>, search: string): seq<Product> {
    SearchFiltered(products, Itself(), search)
  }

  /** The number the "Visible products" badge shows. */
  function VisibleCount(products: seq<Product>, search: string): nat {
    |Filtered(products, search)|
  }

  /** A white-space search returns the list unchanged; otherwise a product is kept, in
      order, exactly when its lowercased name or item number contains the search key.
      The badge counts the kept products, at most all of them. */
  lemma {:induction false} FilteredMeaning(products: seq<Product>, search: string)
    ensures AllWhitespace(search) ==> Filtered(products, search) == products
    ensures IsSubsequence(Filtered(products, search), products)
    ensures forall i :: 0 <= i < |products| ==>
      (products[i] in Filtered(products, search) <==> MatchesQuery(products[i], SearchKey(search)))
    ensures VisibleCount(products, search) == |Filtered(products, search)| <= |products|
    ensures AllWhitespace(search) ==> VisibleCount(products, search) == |products|
    ensures forall p :: multiset(Filtered(products, search))[p] ==
                          if MatchesQuery(p, SearchKey(search)) then multiset(products)[p] else 0
  {
    var r := Filtered(products, search);
    SearchFilteredMeaning(products, Itself(), search);
    SearchFilteredCounts(products, Itself(), search);
    forall i | 0 <= i < |products| && products[i] in r
      ensures MatchesQuery(products[i], SearchKey(search))
    {
      var k :| 0 <= k < |r| && r[k] == products[i];
      assert MatchesQuery(Itself()(r[k]), SearchKey(search));
    }
  }

  /** `filtered.slice((page - 1) * pageSize, page * pageSize)`. */
  function Paged(filtered: seq<Product>, page: int): seq<Product> {
    Page(filtered, page, PageSize)
  }

  /** A page shows at most twenty products: those from index `(page - 1) * 20` on. */
  lemma {:induction false} PagedContents(filtered: seq<Product>, page: int)
    requires page >= 1
    ensures |Paged(filtered, page)| <= PageSize
    ensures forall i :: 0 <= i < |Paged(filtered, page)| ==> Paged(filtered, page)[i] == filtered[(page - 1) * PageSize + i]
    ensures (page - 1) * PageSize < |filtered| ==> Paged(filtered, page) != []
  {
    PageContents(filtered, page, PageSize);
  }
}

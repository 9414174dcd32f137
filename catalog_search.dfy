/** The product search the catalog pages share: the trimmed, lowercased search text
    as a substring of the lowercased display name or item number. */
module CatalogSearch {
  import opened Seqs
  import opened Text
  import opened Records

  /** `(p.itemDescription || p.name || "").toLowerCase().includes(q) || (p.itemNo || "").toLowerCase().includes(q)`. */
  predicate MatchesQuery(p: Product, query: string) {
    Contains(ToLower(DisplayName(p)), query) || Contains(ToLower(p.itemNo), query)
  }

  /** The view of a list whose entries are products themselves. */
  function Itself(): Product -> Product {
    p => p
  }

  function Matcher<T>(view: T -> Product, query: string): T -> bool {
    x => MatchesQuery(view(x), query)
  }

  /** `if (!q) return list; return list.filter(...)`, over any list whose entries show a product. */
  function SearchFiltered<T>(xs: seq<T>, view: T -> Product, search: string): seq<T> {
    var q := SearchKey(search);
    if q == "" then xs else Filter(Matcher(view, q), xs)
  }

  /** Every product matches the empty query. */
  lemma {:induction false} EmptyQueryMatches(p: Product)
    ensures MatchesQuery(p, "")
  {
    ContainsEmpty(ToLower(DisplayName(p)));
  }

  /** A white-space search leaves the list unchanged; otherwise the search keeps, in their
      order, exactly the entries whose product matches the search key. */
  lemma {:induction false} SearchFilteredMeaning<T>(xs: seq<T>, view: T -> Product, search: string)
    ensures AllWhitespace(search) ==> SearchFiltered(xs, view, search) == xs
    ensures IsSubsequence(SearchFiltered(xs, view, search), xs)
    ensures forall i :: 0 <= i < |SearchFiltered(xs, view, search)| ==>
      MatchesQuery(view(SearchFiltered(xs, view, search)[i]), SearchKey(search))
    ensures forall i :: 0 <= i < |xs| && MatchesQuery(view(xs[i]), SearchKey(search)) ==>
      xs[i] in SearchFiltered(xs, view, search)
  {
    var q := SearchKey(search);
    SearchKeyEmptyIff(search);
    if q == "" {
      assert SearchFiltered(xs, view, search) == xs;
      SubsequenceOfSelf(xs);
      AllMatchEmptyQuery(xs, view);
    } else {
      assert SearchFiltered(xs, view, search) == Filter(Matcher(view, q), xs);
      FilterIsSubsequence(Matcher(view, q), xs);
      FilterKeepsPassing(Matcher(view, q), xs);
    }
  }

  /** The search keeps each matching entry as often as the list holds it, and no other entry. */
  lemma {:induction false} SearchFilteredCounts<T>(xs: seq<T>, view: T -> Product, search: string)
    ensures forall x :: multiset(SearchFiltered(xs, view, search))[x] ==
                          if MatchesQuery(view(x), SearchKey(search)) then multiset(xs)[x] else 0
  {
    var q := SearchKey(search);
    if q == "" {
      forall x
        ensures MatchesQuery(view(x), q)
      {
        EmptyQueryMatches(view(x));
      }
    } else {
      FilterMultiplicity(Matcher(view, q), xs);
    }
  }

  lemma {:induction false} AllMatchEmptyQuery<T>(xs: seq<T>, view: T -> Product)
    ensures forall i :: 0 <= i < |xs| ==> MatchesQuery(view(xs[i]), "")
  {
    forall i | 0 <= i < |xs|
      ensures MatchesQuery(view(xs[i]), "")
    {
      EmptyQueryMatches(view(xs[i]));
    }
  }

  /** Upper- and lowercase spellings of a search give the same list. */
  lemma {:induction false} SearchIgnoresCase<T>(xs: seq<T>, view: T -> Product, search: string)
    ensures SearchFiltered(xs, view, ToLower(search)) == SearchFiltered(xs, view, search)
  {
    SearchKeyCaseInsensitive(search);
  }
}

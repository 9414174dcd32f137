/** The dealer's wallet: the transactions split into credits and debits, and the
    product and quantity each transaction row shows. */
module DealerWallet {
  import opened Js
  import opened Seqs

  /** The populated `productID` of an allocated product. */
  datatype ProductInfo = ProductInfo(itemDescription: string, name: string)

  /** One entry of `allocatedProducts`; `uom` is `None` when the field is absent. */
  datatype AllocatedProduct = AllocatedProduct(product: Option<ProductInfo>, qty: Num, uom: Option<string>)

  datatype Transaction = Transaction(id: string, txType: string, points: Num, allocatedProducts: seq<AllocatedProduct>)

  function OfType(txType: string): Transaction -> bool {
    (t: Transaction) => t.txType == txType
  }

  /** `transactions.filter((t) => t.type === "Credit")`. */
  function Credits(transactions: seq<Transaction>): seq<Transaction> {
    Filter(OfType("Credit"), transactions)
  }

  /** `transactions.filter((t) => t.type === "Debit")`. */
  function Debits(transactions: seq<Transaction>): seq<Transaction> {
    Filter(OfType("Debit"), transactions)
  }

  /** A column keeps, in their order, exactly the transactions of its type. */
  lemma {:induction false} ColumnOfType(transactions: seq<Transaction>, txType: string)
    ensures IsSubsequence(Filter(OfType(txType), transactions), transactions)
    ensures forall i :: 0 <= i < |transactions| ==>
      (transactions[i] in Filter(OfType(txType), transactions) <==> transactions[i].txType == txType)
    ensures forall t :: t in Filter(OfType(txType), transactions) ==> t.txType == txType
  {
    var c := Filter(OfType(txType), transactions);
    FilterIsSubsequence(OfType(txType), transactions);
    FilterMembership(OfType(txType), transactions);
    forall t | t in c
      ensures t.txType == txType
    {
      var k :| 0 <= k < |c| && c[k] == t;
      assert OfType(txType)(c[k]);
    }
  }

  /** A column holds each transaction of its type as often as the list does, and no other. */
  lemma {:induction false} ColumnCounts(transactions: seq<Transaction>, txType: string)
    ensures forall t :: multiset(Filter(OfType(txType), transactions))[t] ==
                          if t.txType == txType then multiset(transactions)[t] else 0
  {
    FilterMultiplicity(OfType(txType), transactions);
  }

  /** The credits are exactly the transactions of type "Credit", in their order, and the
      debits exactly those of type "Debit"; no transaction is in both columns, and the
      columns hold all the transactions exactly when there is no other type. */
  lemma {:induction false} ColumnsMeaning(transactions: seq<Transaction>)
    ensures IsSubsequence(Credits(transactions), transactions)
    ensures IsSubsequence(Debits(transactions), transactions)
    ensures forall i :: 0 <= i < |transactions| ==>
      (transactions[i] in Credits(transactions) <==> transactions[i].txType == "Credit")
    ensures forall i :: 0 <= i < |transactions| ==>
      (transactions[i] in Debits(transactions) <==> transactions[i].txType == "Debit")
    ensures forall t :: t in Credits(transactions) ==> t !in Debits(transactions)
    ensures |Credits(transactions)| + |Debits(transactions)| <= |transactions|
    ensures |Credits(transactions)| + |Debits(transactions)| == |transactions| <==>
      forall t :: t in transactions ==> t.txType == "Credit" || t.txType == "Debit"
  {
    ColumnOfType(transactions, "Credit");
    ColumnOfType(transactions, "Debit");
    FilterDisjointCount(OfType("Credit"), OfType("Debit"), transactions);
  }

  /** `allocation.productID?.itemDescription || allocation.productID?.name || "SKU"`. */
  function AllocationName(a: AllocatedProduct): string {
    match a.product
    case None => "SKU"
    case Some(info) => StrOr(info.itemDescription, StrOr(info.name, "SKU"))
  }

  /** `resolveProductName`. */
  function ResolveProductName(tx: Transaction): string {
    if tx.allocatedProducts == [] then "—" else AllocationName(tx.allocatedProducts[0])
  }

  /** A transaction without allocated products shows the dash; otherwise only the first
      allocation counts, and it shows its description, else its name, else "SKU", so
      the name is never empty. */
  lemma {:induction false} ResolveProductNameMeaning(tx: Transaction)
    ensures tx.allocatedProducts == [] ==> ResolveProductName(tx) == "—"
    ensures tx.allocatedProducts != [] ==>
      ResolveProductName(tx) == ResolveProductName(tx.(allocatedProducts := [tx.allocatedProducts[0]]))
    ensures ResolveProductName(tx) != ""
    ensures tx.allocatedProducts != [] && tx.allocatedProducts[0].product.Some? ==>
      var info := tx.allocatedProducts[0].product.value;
      && (info.itemDescription != "" ==> ResolveProductName(tx) == info.itemDescription)
      && (info.itemDescription == "" && info.name != "" ==> ResolveProductName(tx) == info.name)
      && (info.itemDescription == "" && info.name == "" ==> ResolveProductName(tx) == "SKU")
  {
  }

  /** `${allocation.uom}`: an absent unit prints "undefined". */
  function UomText(uom: Option<string>): string {
    uom.GetOr("undefined")
  }

  /** `resolveQuantity`, with the page's number formatter passed in. */
  function ResolveQuantity(tx: Transaction, formatNumber: Num -> string): string {
    if tx.allocatedProducts == [] then "—"
    else
      var a := tx.allocatedProducts[0];
      formatNumber(a.qty) + " " + UomText(a.uom)
  }

  /** The quantity is the dash exactly for a transaction without allocated products,
      whatever the formatter prints; otherwise it is the first allocation's formatted
      quantity, a space, and its unit, and later allocations do not count. */
  lemma {:induction false} ResolveQuantityMeaning(tx: Transaction, formatNumber: Num -> string)
    ensures tx.allocatedProducts == [] <==> ResolveQuantity(tx, formatNumber) == "—"
    ensures tx.allocatedProducts != [] ==>
      var a := tx.allocatedProducts[0];
      var text := formatNumber(a.qty);
      && ResolveQuantity(tx, formatNumber)[..|text|] == text
      && ResolveQuantity(tx, formatNumber)[|text|] == ' '
      && ResolveQuantity(tx, formatNumber)[|text| + 1..] == UomText(a.uom)
    ensures tx.allocatedProducts != [] ==>
      ResolveQuantity(tx, formatNumber) == ResolveQuantity(tx.(allocatedProducts := [tx.allocatedProducts[0]]), formatNumber)
  {
    if tx.allocatedProducts != [] {
      var a := tx.allocatedProducts[0];
      var r := ResolveQuantity(tx, formatNumber);
      var text := formatNumber(a.qty);
      assert r == text + [' '] + UomText(a.uom);
      if UomText(a.uom) == [] {
        assert |r| == |text| + 1;
      }
      assert ' ' in r && '—' !in " ";
    }
  }
}

/** The backend records the pages read: products, their allocations, invoices and
    invoice items, and the unit-of-measure vocabulary. */
module Records {
  import opened Js

  /** The head-office role: a user with unlimited stock, and the creator role of the
      invoices that deliver stock to distributors. */
  const CompanyRole: string := "Company"

  /** A unit of measure. The four the UI offers, and any other string a stored line may carry. */
  datatype Uom = Piece | Dozen | Box | Carton | Other(name: string)

  function UomName(u: Uom): string {
    match u
    case Piece => "PIECE"
    case Dozen => "DOZEN"
    case Box => "BOX"
    case Carton => "CARTON"
    case Other(name) => name
  }

  predicate IsKnownUomName(s: string) {
    s == "PIECE" || s == "DOZEN" || s == "BOX" || s == "CARTON"
  }

  /** The unit a stored `uom` string denotes. */
  function ParseUom(s: string): (u: Uom)
    ensures u.Other? <==> !IsKnownUomName(s)
    ensures UomName(u) == s
  {
    if s == "PIECE" then Piece
    else if s == "DOZEN" then Dozen
    else if s == "BOX" then Box
    else if s == "CARTON" then Carton
    else Other(s)
  }

  /** A unit in canonical form: `Other` never spells one of the four known names. */
  predicate CanonicalUom(u: Uom) {
    u.Other? ==> !IsKnownUomName(u.name)
  }

  /** Parsing and printing are inverse on canonical units, so comparing `Uom` values is
      comparing the strings the source compares with `===`. */
  lemma {:induction false} UomRoundTrip(u: Uom)
    requires CanonicalUom(u)
    ensures ParseUom(UomName(u)) == u
  {
  }

  lemma {:induction false} ParseUomInjective(a: string, b: string)
    ensures ParseUom(a) == ParseUom(b) <==> a == b
  {
    assert UomName(ParseUom(a)) == a && UomName(ParseUom(b)) == b;
  }

  /** `product.allocation`: the caller's share of a product. */
  datatype Allocation = Allocation(pieces: Num, qty: Num, uom: string)

  /** A product as the product and allocation endpoints return it. `productRef` is the id
      of the populated `productID` object an allocation listing may carry ("" when absent). */
  datatype Product = Product(
    id: string,
    productRef: string,
    itemDescription: string,
    name: string,
    itemNo: string,
    salesUom: string,
    boxQuantity: Num,
    cartonQuantity: Num,
    rewardsPerPc: Num,
    rewardsPerDozen: Num,
    rewardsForBox: Num,
    rewardsForCarton: Num,
    allocation: Option<Allocation>)

  /** `product.itemDescription || product.name || ""`. */
  function DisplayName(p: Product): string {
    StrOr(p.itemDescription, StrOr(p.name, ""))
  }

  /** An invoice line as the invoice endpoint returns it. `productId` is the id of
      `productID` (populated or bare), `productName` the name of a populated `productID`. */
  datatype InvoiceItem = InvoiceItem(
    productId: string,
    productName: string,
    itemCode: string,
    itemName: string,
    qty: Num,
    uom: string)

  /** `Number(item.qty || 0)`: a missing quantity counts as 0. */
  function ItemQty(it: InvoiceItem): int {
    TruthyOr(it.qty, 0)
  }

  /** An invoice; dates are abstract timestamps. `toUserId` is `toUser._id`, or `toUser`
      itself when it is a bare id. */
  datatype Invoice = Invoice(
    id: string,
    fromUserName: string,
    toUserId: string,
    createdByRole: string,
    items: seq<InvoiceItem>,
    invoiceDate: Option<int>,
    date: Option<int>)

  /** `invoice.invoiceDate || invoice.date || Date.now()`, with the clock passed in. */
  function InvoiceDateOf(inv: Invoice, now: int): int {
    if inv.invoiceDate.Some? then inv.invoiceDate.value
    else if inv.date.Some? then inv.date.value
    else now
  }
}

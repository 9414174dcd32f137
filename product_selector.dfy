/** The invoice line-item builder: unit-of-measure conversion, reward-per-unit
    resolution, the stock guard, the line edits and the selection summary. */
module ProductSelector {
  import opened Js
  import opened Seqs
  import opened Text
  import opened Records

  /** One line of an invoice draft. */
  datatype LineItem = LineItem(productID: string, qty: int, uom: Uom)

  /** Stock expressed in each unit. */
  datatype Units = Units(pieces: int, dozens: int, boxes: int, cartons: int)

  datatype Summary = Summary(totalQty: int, totalRewards: int, totalItems: int)

  // ---------------------------------------------------------------------------
  // Conversion and rewards

  /** `normalizeReward(value, fallback)`: the number itself when finite, else the fallback. */
  function NormalizeReward(v: Num, fallback: int): int {
    match v
    case Finite(n) => n
    case NotFinite => fallback
  }

  /** `getRewardPerUnit`: the reward points one unit earns. */
  function RewardPerUnit(product: Option<Product>, uom: Uom): int {
    match product
    case None => 0
    case Some(p) =>
      var perPc := NormalizeReward(p.rewardsPerPc, 0);
      match uom
      case Piece => perPc
      case Dozen => NormalizeReward(p.rewardsPerDozen, perPc * 12)
      case Box => NormalizeReward(p.rewardsForBox, perPc * NormalizeReward(p.boxQuantity, 0))
      case Carton => NormalizeReward(p.rewardsForCarton, perPc * NormalizeReward(p.cartonQuantity, 0))
      case Other(_) => 0
  }

  /** `getPiecesFromUom`: how many pieces `qty` units are. A missing box or carton size counts as 0. */
  function PiecesFromUom(p: Product, uom: Uom, qty: int): int {
    match uom
    case Piece => qty
    case Dozen => qty * 12
    case Box => qty * NormalizeReward(p.boxQuantity, 0)
    case Carton => qty * NormalizeReward(p.cartonQuantity, 0)
    case Other(_) => qty
  }

  /** Conversion is linear in the quantity, with the sizes PIECE = 1, DOZEN = 12,
      BOX and CARTON = the product's own size (0 when missing), and 1 for any other unit. */
  lemma {:induction false} PiecesFromUomLinear(p: Product, uom: Uom, a: int, b: int)
    ensures PiecesFromUom(p, uom, a + b) == PiecesFromUom(p, uom, a) + PiecesFromUom(p, uom, b)
    ensures PiecesFromUom(p, uom, a * b) == a * PiecesFromUom(p, uom, b)
    ensures PiecesFromUom(p, uom, a) == a * PiecesFromUom(p, uom, 1)
    ensures PiecesFromUom(p, uom, 1) == match uom
      case Piece => 1
      case Dozen => 12
      case Box => NormalizeReward(p.boxQuantity, 0)
      case Carton => NormalizeReward(p.cartonQuantity, 0)
      case Other(_) => 1
  {
    match uom
    case Box =>
      var s := NormalizeReward(p.boxQuantity, 0);
      assert (a * b) * s == a * (b * s);
    case Carton =>
      var s := NormalizeReward(p.cartonQuantity, 0);
      assert (a * b) * s == a * (b * s);
    case _ =>
  }

  /** A unit with no rate of its own earns the per-piece rate times its size in pieces;
      a unit with its own finite rate earns exactly that rate; a piece without a rate,
      an unknown product or an unrecognised unit earns nothing. */
  lemma {:induction false} RewardFallsBackToPerPiece(product: Option<Product>, uom: Uom)
    ensures product.None? || uom.Other? ==> RewardPerUnit(product, uom) == 0
    ensures product.Some? && product.value.rewardsPerPc.NotFinite? ==> RewardPerUnit(product, Piece) == 0
    ensures product.Some? && !uom.Other? && OwnRate(product.value, uom).NotFinite? ==>
      RewardPerUnit(product, uom) == RewardPerUnit(product, Piece) * PiecesFromUom(product.value, uom, 1)
    ensures product.Some? && !uom.Other? && OwnRate(product.value, uom).Finite? ==>
      RewardPerUnit(product, uom) == OwnRate(product.value, uom).n
  {
  }

  /** The rate a product states for a unit itself; PIECE's own rate is `rewardsPerPc`. */
  function OwnRate(p: Product, uom: Uom): Num {
    match uom
    case Piece => p.rewardsPerPc
    case Dozen => p.rewardsPerDozen
    case Box => p.rewardsForBox
    case Carton => p.rewardsForCarton
    case Other(_) => NotFinite
  }

  /** `n` units of `size` pieces fit in `pieces`, and `n + 1` do not; no size, no units. */
  predicate FloorQuotient(pieces: int, size: int, n: int) {
    if size > 0 then n * size <= pieces < (n + 1) * size else n == 0
  }

  /** `calculateAvailableUnits` of the invoice builder: a piece balance in each unit.
      A non-numeric box or carton size counts as 1. */
  function AvailableUnits(product: Option<Product>, availablePieces: int): (r: Units)
    ensures product.None? || availablePieces <= 0 ==> r == Units(0, 0, 0, 0)
    ensures product.Some? && availablePieces > 0 ==>
      && r.pieces == availablePieces
      && FloorQuotient(availablePieces, 12, r.dozens)
      && FloorQuotient(availablePieces, NormalizeReward(product.value.boxQuantity, 1), r.boxes)
      && FloorQuotient(availablePieces, NormalizeReward(product.value.cartonQuantity, 1), r.cartons)
  {
    if product.None? || availablePieces <= 0 then Units(0, 0, 0, 0)
    else
      var p := product.value;
      var boxQty := NormalizeReward(p.boxQuantity, 1);
      var cartonQty := NormalizeReward(p.cartonQuantity, 1);
      var r := Units(
        availablePieces,
        availablePieces / 12,
        if boxQty > 0 then availablePieces / boxQty else 0,
        if cartonQty > 0 then availablePieces / cartonQty else 0);
      FloorDivision(availablePieces, 12);
      FloorDivision(availablePieces, boxQty);
      FloorDivision(availablePieces, cartonQty);
      r
  }

  lemma {:induction false} FloorDivision(pieces: int, size: int)
    ensures FloorQuotient(pieces, size, if size > 0 then pieces / size else 0)
  {
    if size > 0 {
      var q, m := pieces / size, pieces % size;
      assert pieces == q * size + m && 0 <= m < size;
      assert (q + 1) * size == q * size + size;
    }
  }

  // ---------------------------------------------------------------------------
  // Lines and the stock guard

  /** `item.productID === id && item.uom === uom`: the line identity the edits use. */
  predicate Matches(it: LineItem, id: string, uom: Uom) {
    it.productID == id && it.uom == uom
  }

  function IsLine(id: string, uom: Uom): LineItem -> bool {
    (it: LineItem) => Matches(it, id, uom)
  }

  function OfProduct(id: string): LineItem -> bool {
    (it: LineItem) => it.productID == id
  }

  /** `getProductItems(productId)`. */
  function LinesOf(items: seq<LineItem>, id: string): seq<LineItem> {
    Filter(OfProduct(id), items)
  }

  /** `product?.allocation?.pieces || 0`. */
  function AllocatedPieces(product: Option<Product>): int {
    match product
    case None => 0
    case Some(p) => if p.allocation.Some? then TruthyOr(p.allocation.value.pieces, 0) else 0
  }

  /** The reducer step of the guard: a line of the unit being edited adds nothing. */
  function GuardTerm(p: Product, uom: Uom): LineItem -> int {
    (it: LineItem) => if it.productID == p.id && it.uom == uom then 0 else PiecesFromUom(p, it.uom, it.qty)
  }

  /** `checkStockAvailability(product, uom, requestedQty)`. */
  predicate StockAvailable(items: seq<LineItem>, p: Product, uom: Uom, requestedQty: int, role: string, showStock: bool) {
    if !showStock || role == CompanyRole then true
    else
      SumOf(GuardTerm(p, uom), LinesOf(items, p.id)) + PiecesFromUom(p, uom, requestedQty)
        <= AllocatedPieces(Some(p))
  }

  /** The pieces of a product's lines in units other than `uom`. */
  function OtherUnitsTerm(p: Product, uom: Uom): LineItem -> int {
    (it: LineItem) => if it.productID == p.id && it.uom != uom then PiecesFromUom(p, it.uom, it.qty) else 0
  }

  /** The pieces of a product's lines in unit `uom`. */
  function SameUnitTerm(p: Product, uom: Uom): LineItem -> int {
    (it: LineItem) => if it.productID == p.id && it.uom == uom then PiecesFromUom(p, it.uom, it.qty) else 0
  }

  /** The pieces of all of a product's lines. */
  function ProductTerm(p: Product): LineItem -> int {
    (it: LineItem) => if it.productID == p.id then PiecesFromUom(p, it.uom, it.qty) else 0
  }

  function ProductPieces(items: seq<LineItem>, p: Product): int {
    SumOf(ProductTerm(p), items)
  }

  /** The guard passes exactly when the pieces already on the product's lines in other
      units, plus the requested quantity in pieces, fit in the allocation; it always
      passes when stock is hidden or the caller is the Company. */
  lemma {:induction false} StockGuardIff(items: seq<LineItem>, p: Product, uom: Uom, q: int, role: string, showStock: bool)
    ensures !showStock || role == CompanyRole ==> StockAvailable(items, p, uom, q, role, showStock)
    ensures showStock && role != CompanyRole ==>
      (StockAvailable(items, p, uom, q, role, showStock) <==>
        SumOf(OtherUnitsTerm(p, uom), items) + PiecesFromUom(p, uom, q) <= AllocatedPieces(Some(p)))
  {
    SumFilter(GuardTerm(p, uom), OfProduct(p.id), OtherUnitsTerm(p, uom), items);
  }

  /** Lines of other products never affect the guard, wherever they stand in the list. */
  lemma {:induction false} StockGuardIgnoresOtherProducts(a: seq<LineItem>, others: seq<LineItem>, b: seq<LineItem>,
                                                         p: Product, uom: Uom, q: int, role: string, showStock: bool)
    requires forall i :: 0 <= i < |others| ==> others[i].productID != p.id
    ensures StockAvailable(a + others + b, p, uom, q, role, showStock) == StockAvailable(a + b, p, uom, q, role, showStock)
  {
    var f := OfProduct(p.id);
    FilterKeepsNone(f, others);
    FilterConcat(f, a, others);
    assert Filter(f, a + others) == Filter(f, a);
    FilterConcat(f, a + others, b);
    FilterConcat(f, a, b);
    assert LinesOf(a + others + b, p.id) == LinesOf(a + b, p.id);
  }

  /** With a box size that is not a number, boxes count as 0 pieces, so the guard
      accepts any number of boxes whenever it accepts none. */
  lemma {:induction false} MissingBoxSizeIsUnguarded(items: seq<LineItem>, p: Product, q: int, role: string, showStock: bool)
    requires p.boxQuantity.NotFinite?
    ensures StockAvailable(items, p, Box, q, role, showStock) == StockAvailable(items, p, Box, 0, role, showStock)
  {
  }

  // ---------------------------------------------------------------------------
  // Line edits

  /** No two lines share a (product, unit) pair. */
  predicate NoDuplicateLines(items: seq<LineItem>) {
    forall i, j :: 0 <= i < j < |items| ==>
      !(items[i].productID == items[j].productID && items[i].uom == items[j].uom)
  }

  /** `items.find(...)` for the line of (id, uom): the first matching line. */
  function FindLine(items: seq<LineItem>, id: string, uom: Uom): (r: Option<LineItem>)
    ensures r.None? <==> forall i :: 0 <= i < |items| ==> !Matches(items[i], id, uom)
    ensures r.Some? ==> exists k :: 0 <= k < |items| && items[k] == r.value && Matches(items[k], id, uom)
                           && forall j :: 0 <= j < k ==> !Matches(items[j], id, uom)
    decreases |items|
  {
    if items == [] then None
    else if Matches(items[0], id, uom) then Some(items[0])
    else
      var r := FindLine(items[1..], id, uom);
      if r.Some? then
        ghost var k :| 0 <= k < |items[1..]| && items[1..][k] == r.value && Matches(items[1..][k], id, uom)
                       && forall j :: 0 <= j < k ==> !Matches(items[1..][j], id, uom);
        assert items[k + 1] == r.value;
        r
      else r
  }

  /** `existingItem?.qty || 0`. */
  function CurrentQty(items: seq<LineItem>, id: string, uom: Uom): int {
    match FindLine(items, id, uom)
    case Some(it) => it.qty
    case None => 0
  }

  /** The `items.map(...)` of `updateQuantity`: every matching line gets quantity `q`. */
  function SetQty(items: seq<LineItem>, id: string, uom: Uom, q: int): (r: seq<LineItem>)
    ensures |r| == |items|
    ensures forall i :: 0 <= i < |items| ==>
      r[i] == if Matches(items[i], id, uom) then items[i].(qty := q) else items[i]
    decreases |items|
  {
    if items == [] then []
    else [if Matches(items[0], id, uom) then items[0].(qty := q) else items[0]] + SetQty(items[1..], id, uom, q)
  }

  function Max(a: int, b: int): int {
    if a >= b then a else b
  }

  /** `addUnit`: a new quantity-1 line, appended without looking for an existing one. */
  function AddedUnit(items: seq<LineItem>, p: Product, uom: Uom): seq<LineItem> {
    if p.id == "" then items else items + [LineItem(p.id, 1, uom)]
  }

  /** `updateQuantity`: the new list the builder hands to its parent. */
  function UpdatedItems(items: seq<LineItem>, id: string, uom: Uom, delta: int): seq<LineItem> {
    if id == "" then items
    else
      var newQty := Max(0, CurrentQty(items, id, uom) + delta);
      if newQty == 0 then Filter(Not(IsLine(id, uom)), items)
      else if FindLine(items, id, uom).Some? then SetQty(items, id, uom, newQty)
      else items + [LineItem(id, newQty, uom)]
  }

  /** `removeUnit`. */
  function RemovedUnit(items: seq<LineItem>, id: string, uom: Uom): seq<LineItem> {
    Filter(Not(IsLine(id, uom)), items)
  }

  /** `handleQuantityChange`: a negative result or a guard rejection leaves the list alone. */
  function QuantityChanged(items: seq<LineItem>, p: Product, uom: Uom, delta: int, role: string, showStock: bool): seq<LineItem> {
    var newQty := CurrentQty(items, p.id, uom) + delta;
    if newQty < 0 then items
    else if !StockAvailable(items, p, uom, newQty, role, showStock) then items
    else UpdatedItems(items, p.id, uom, delta)
  }

  /** The three outcomes of `handleQuantityChange`, one per branch. */
  lemma {:induction false} QuantityChangedCases(items: seq<LineItem>, p: Product, uom: Uom, delta: int, role: string, showStock: bool)
    ensures var newQty := CurrentQty(items, p.id, uom) + delta;
      && (newQty < 0 ==> QuantityChanged(items, p, uom, delta, role, showStock) == items)
      && (newQty >= 0 && !StockAvailable(items, p, uom, newQty, role, showStock) ==>
            QuantityChanged(items, p, uom, delta, role, showStock) == items)
      && (newQty >= 0 && StockAvailable(items, p, uom, newQty, role, showStock) ==>
            QuantityChanged(items, p, uom, delta, role, showStock) == UpdatedItems(items, p.id, uom, delta))
  {
  }

  /** `removeUnit` drops exactly the lines of (id, uom), keeps the others in order,
      and a second removal changes nothing. */
  lemma {:induction false} RemoveUnitExact(items: seq<LineItem>, id: string, uom: Uom)
    ensures forall i :: 0 <= i < |RemovedUnit(items, id, uom)| ==> !Matches(RemovedUnit(items, id, uom)[i], id, uom)
    ensures forall i :: 0 <= i < |items| && !Matches(items[i], id, uom) ==> items[i] in RemovedUnit(items, id, uom)
    ensures IsSubsequence(RemovedUnit(items, id, uom), items)
    ensures RemovedUnit(RemovedUnit(items, id, uom), id, uom) == RemovedUnit(items, id, uom)
  {
    var r := RemovedUnit(items, id, uom);
    FilterIsSubsequence(Not(IsLine(id, uom)), items);
    FilterKeepsPassing(Not(IsLine(id, uom)), items);
    FilterKeepsAll(Not(IsLine(id, uom)), r);
  }

  /** The copies `removeUnit` keeps and drops: it keeps every other line as often as the
      list holds it, and the kept and dropped lines together are the whole list. */
  lemma {:induction false} RemovedUnitCounts(items: seq<LineItem>, id: string, uom: Uom)
    ensures forall x :: multiset(RemovedUnit(items, id, uom))[x] ==
                          if Matches(x, id, uom) then 0 else multiset(items)[x]
    ensures |RemovedUnit(items, id, uom)| + |Filter(IsLine(id, uom), items)| == |items|
  {
    FilterMultiplicity(Not(IsLine(id, uom)), items);
    assert forall x :: x in items ==> Not(IsLine(id, uom))(x) || IsLine(id, uom)(x);
    FilterDisjointCount(Not(IsLine(id, uom)), IsLine(id, uom), items);
  }

  /** Lines other than (id, uom) come out of `updateQuantity` unchanged and in their order,
      whichever branch it takes. */
  lemma {:induction false} UpdateQuantityKeepsOtherLines(items: seq<LineItem>, id: string, uom: Uom, delta: int)
    ensures Filter(Not(IsLine(id, uom)), UpdatedItems(items, id, uom, delta)) == Filter(Not(IsLine(id, uom)), items)
  {
    var f := Not(IsLine(id, uom));
    if id != "" {
      var newQty := Max(0, CurrentQty(items, id, uom) + delta);
      UpdatedItemsCases(items, id, uom, delta);
      if newQty == 0 {
        FilterKeepsAll(f, Filter(f, items));
      } else if FindLine(items, id, uom).Some? {
        SetQtyKeepsOtherLines(items, id, uom, newQty);
      } else {
        var line := LineItem(id, newQty, uom);
        FilterConcat(f, items, [line]);
        FilterSingleDropped(f, line);
      }
    }
  }

  /** The three outcomes of `updateQuantity` for a product with an id. */
  lemma {:induction false} UpdatedItemsCases(items: seq<LineItem>, id: string, uom: Uom, delta: int)
    requires id != ""
    ensures var newQty := Max(0, CurrentQty(items, id, uom) + delta);
      && (newQty == 0 ==> UpdatedItems(items, id, uom, delta) == Filter(Not(IsLine(id, uom)), items))
      && (newQty != 0 && FindLine(items, id, uom).Some? ==> UpdatedItems(items, id, uom, delta) == SetQty(items, id, uom, newQty))
      && (newQty != 0 && FindLine(items, id, uom).None? ==> UpdatedItems(items, id, uom, delta) == items + [LineItem(id, newQty, uom)])
  {
  }

  lemma {:induction false} FilterSingleDropped(f: LineItem -> bool, line: LineItem)
    requires !f(line)
    ensures Filter(f, [line]) == []
  {
    assert [line][1..] == [];
  }

  lemma {:induction false} FilterSingleKept(f: LineItem -> bool, line: LineItem)
    requires f(line)
    ensures Filter(f, [line]) == [line]
  {
    assert [line][1..] == [];
  }

  lemma {:induction false} SetQtyKeepsOtherLines(items: seq<LineItem>, id: string, uom: Uom, q: int)
    ensures Filter(Not(IsLine(id, uom)), SetQty(items, id, uom, q)) == Filter(Not(IsLine(id, uom)), items)
    decreases |items|
  {
    if items != [] {
      SetQtyKeepsOtherLines(items[1..], id, uom, q);
      assert SetQty(items, id, uom, q)[1..] == SetQty(items[1..], id, uom, q);
    }
  }

  /** The lines of (id, uom) after `updateQuantity`: none when the new quantity is 0;
      otherwise as many as before, each with the new quantity, or one appended line when
      there was none. */
  lemma {:induction false} UpdateQuantityMatchingLines(items: seq<LineItem>, id: string, uom: Uom, delta: int)
    requires id != ""
    ensures var newQty := Max(0, CurrentQty(items, id, uom) + delta);
      var before := Filter(IsLine(id, uom), items);
      var after := Filter(IsLine(id, uom), UpdatedItems(items, id, uom, delta));
      && (newQty == 0 ==> after == [])
      && (newQty > 0 && before != [] ==> |after| == |before| && forall i :: 0 <= i < |after| ==> after[i] == LineItem(id, newQty, uom))
      && (newQty > 0 && before == [] ==> after == [LineItem(id, newQty, uom)])
  {
    var newQty := Max(0, CurrentQty(items, id, uom) + delta);
    UpdatedItemsCases(items, id, uom, delta);
    if newQty == 0 {
      RemovedLinesGone(items, id, uom);
    } else if FindLine(items, id, uom).Some? {
      SetQtyMatchingLines(items, id, uom, newQty);
      FoundLineIsKept(items, id, uom);
    } else {
      AppendedLineIsOnlyMatch(items, id, uom, newQty);
    }
  }

  lemma {:induction false} RemovedLinesGone(items: seq<LineItem>, id: string, uom: Uom)
    ensures Filter(IsLine(id, uom), Filter(Not(IsLine(id, uom)), items)) == []
  {
    FilterKeepsNone(IsLine(id, uom), Filter(Not(IsLine(id, uom)), items));
  }

  lemma {:induction false} AppendedLineIsOnlyMatch(items: seq<LineItem>, id: string, uom: Uom, q: int)
    requires FindLine(items, id, uom).None?
    ensures Filter(IsLine(id, uom), items) == []
    ensures Filter(IsLine(id, uom), items + [LineItem(id, q, uom)]) == [LineItem(id, q, uom)]
  {
    var f := IsLine(id, uom);
    var line := LineItem(id, q, uom);
    FilterKeepsNone(f, items);
    FilterConcat(f, items, [line]);
    FilterSingleKept(f, line);
  }

  /** A line `find` returns passes the line filter, so the filtered list is not empty. */
  lemma {:induction false} FoundLineIsKept(items: seq<LineItem>, id: string, uom: Uom)
    requires FindLine(items, id, uom).Some?
    ensures Filter(IsLine(id, uom), items) != []
  {
    var k :| 0 <= k < |items| && items[k] == FindLine(items, id, uom).value && Matches(items[k], id, uom);
    FilterKeepsPassing(IsLine(id, uom), items);
    assert IsLine(id, uom)(items[k]);
    assert items[k] in Filter(IsLine(id, uom), items);
  }

  lemma {:induction false} SetQtyMatchingLines(items: seq<LineItem>, id: string, uom: Uom, q: int)
    ensures var after := Filter(IsLine(id, uom), SetQty(items, id, uom, q));
      && |after| == |Filter(IsLine(id, uom), items)|
      && forall i :: 0 <= i < |after| ==> after[i] == LineItem(id, q, uom)
    decreases |items|
  {
    if items != [] {
      SetQtyMatchingLines(items[1..], id, uom, q);
      assert SetQty(items, id, uom, q)[1..] == SetQty(items[1..], id, uom, q);
    }
  }

  /** `updateQuantity` never creates a second line for a (product, unit) pair. */
  lemma {:induction false} UpdateQuantityKeepsLinesDistinct(items: seq<LineItem>, id: string, uom: Uom, delta: int)
    requires NoDuplicateLines(items)
    ensures NoDuplicateLines(UpdatedItems(items, id, uom, delta))
  {
    if id != "" {
      var newQty := Max(0, CurrentQty(items, id, uom) + delta);
      UpdatedItemsCases(items, id, uom, delta);
      if newQty == 0 {
        FilterKeepsLinesDistinct(Not(IsLine(id, uom)), items);
      } else if FindLine(items, id, uom).Some? {
        SetQtyKeepsLinesDistinct(items, id, uom, newQty);
      } else {
        AppendKeepsLinesDistinct(items, LineItem(id, newQty, uom));
      }
    }
  }

  lemma {:induction false} SetQtyKeepsLinesDistinct(items: seq<LineItem>, id: string, uom: Uom, q: int)
    requires NoDuplicateLines(items)
    ensures NoDuplicateLines(SetQty(items, id, uom, q))
  {
    var r := SetQty(items, id, uom, q);
    assert forall i :: 0 <= i < |r| ==> r[i].productID == items[i].productID && r[i].uom == items[i].uom;
  }

  /** A line unlike every existing one can be appended without a duplicate. */
  lemma {:induction false} AppendKeepsLinesDistinct(items: seq<LineItem>, line: LineItem)
    requires NoDuplicateLines(items)
    requires FindLine(items, line.productID, line.uom).None?
    ensures NoDuplicateLines(items + [line])
  {
    var r := items + [line];
    forall i, j | 0 <= i < j < |r|
      ensures !(r[i].productID == r[j].productID && r[i].uom == r[j].uom)
    {
      assert r[i] == items[i];
      if j < |items| {
        assert r[j] == items[j];
      } else {
        assert !Matches(items[i], line.productID, line.uom);
      }
    }
  }

  lemma {:induction false} FilterKeepsLinesDistinct(f: LineItem -> bool, items: seq<LineItem>)
    requires NoDuplicateLines(items)
    ensures NoDuplicateLines(Filter(f, items))
    decreases |items|
  {
    if items != [] {
      var x := items[0];
      var rest := Filter(f, items[1..]);
      assert NoDuplicateLines(items[1..]) by {
        assert forall i :: 0 <= i < |items[1..]| ==> items[1..][i] == items[i + 1];
      }
      FilterKeepsLinesDistinct(f, items[1..]);
      if f(x) {
        assert Filter(f, items) == [x] + rest;
        assert forall k :: 0 <= k < |items[1..]| ==> items[1..][k] == items[k + 1];
        assert UnlikeAll(x, items[1..]);
        FilterKeepsUnlike(f, x, items[1..]);
        ConsKeepsLinesDistinct(x, rest);
      }
    }
  }

  /** No line of `s` has the (product, unit) pair of `x`. */
  predicate UnlikeAll(x: LineItem, s: seq<LineItem>) {
    forall k :: 0 <= k < |s| ==> !Matches(s[k], x.productID, x.uom)
  }

  lemma {:induction false} FilterKeepsUnlike(f: LineItem -> bool, x: LineItem, s: seq<LineItem>)
    requires UnlikeAll(x, s)
    ensures UnlikeAll(x, Filter(f, s))
  {
    var r := Filter(f, s);
    forall j | 0 <= j < |r|
      ensures !Matches(r[j], x.productID, x.uom)
    {
      assert r[j] in s;
    }
  }

  lemma {:induction false} ConsKeepsLinesDistinct(x: LineItem, rest: seq<LineItem>)
    requires UnlikeAll(x, rest) && NoDuplicateLines(rest)
    ensures NoDuplicateLines([x] + rest)
  {
    var r := [x] + rest;
    forall i, j | 0 <= i < j < |r|
      ensures !(r[i].productID == r[j].productID && r[i].uom == r[j].uom)
    {
      assert r[j] == rest[j - 1];
      if i > 0 {
        assert r[i] == rest[i - 1];
      }
    }
  }

  /** The invariant the guard exists for: when no (product, unit) pair has two lines, a
      change the guard lets through leaves the product's lines, in pieces, within the
      allocation. */
  lemma {:induction false} GuardedChangeWithinAllocation(items: seq<LineItem>, p: Product, uom: Uom, delta: int, role: string)
    requires p.id != "" && role != CompanyRole
    requires NoDuplicateLines(items)
    ensures var r := QuantityChanged(items, p, uom, delta, role, true);
      && NoDuplicateLines(r)
      && (r == items || ProductPieces(r, p) <= AllocatedPieces(Some(p)))
  {
    var q := CurrentQty(items, p.id, uom) + delta;
    QuantityChangedCases(items, p, uom, delta, role, true);
    if q >= 0 && StockAvailable(items, p, uom, q, role, true) {
      var r := UpdatedItems(items, p.id, uom, delta);
      assert QuantityChanged(items, p, uom, delta, role, true) == r;
      UpdateQuantityKeepsLinesDistinct(items, p.id, uom, delta);
      StockGuardIff(items, p, uom, q, role, true);
      SplitProductPieces(r, p, uom);
      UpdateKeepsOtherUnitsPieces(items, p, uom, delta);
      UpdateSameUnitPieces(items, p, uom, delta);
      assert ProductPieces(r, p) == SumOf(OtherUnitsTerm(p, uom), items) + PiecesFromUom(p, uom, q);
    } else {
      assert QuantityChanged(items, p, uom, delta, role, true) == items;
    }
  }

  lemma {:induction false} SplitProductPieces(items: seq<LineItem>, p: Product, uom: Uom)
    ensures ProductPieces(items, p) == SumOf(OtherUnitsTerm(p, uom), items) + SumOf(SameUnitTerm(p, uom), items)
  {
    SumAdd(OtherUnitsTerm(p, uom), SameUnitTerm(p, uom), ProductTerm(p), items);
  }

  lemma {:induction false} UpdateKeepsOtherUnitsPieces(items: seq<LineItem>, p: Product, uom: Uom, delta: int)
    requires p.id != ""
    ensures SumOf(OtherUnitsTerm(p, uom), UpdatedItems(items, p.id, uom, delta)) == SumOf(OtherUnitsTerm(p, uom), items)
  {
    var g := OtherUnitsTerm(p, uom);
    var newQty := Max(0, CurrentQty(items, p.id, uom) + delta);
    UpdatedItemsCases(items, p.id, uom, delta);
    if newQty == 0 {
      SumFilter(g, Not(IsLine(p.id, uom)), g, items);
    } else if FindLine(items, p.id, uom).Some? {
      SumPointwise(g, SetQty(items, p.id, uom, newQty), items);
    } else {
      SumConcat(g, items, [LineItem(p.id, newQty, uom)]);
    }
  }

  lemma {:induction false} UpdateSameUnitPieces(items: seq<LineItem>, p: Product, uom: Uom, delta: int)
    requires p.id != "" && NoDuplicateLines(items)
    requires CurrentQty(items, p.id, uom) + delta >= 0
    ensures SumOf(SameUnitTerm(p, uom), UpdatedItems(items, p.id, uom, delta))
            == PiecesFromUom(p, uom, CurrentQty(items, p.id, uom) + delta)
  {
    var g := SameUnitTerm(p, uom);
    var q := CurrentQty(items, p.id, uom) + delta;
    var r := UpdatedItems(items, p.id, uom, delta);
    UpdatedItemsCases(items, p.id, uom, delta);
    if q == 0 {
      var kept := Filter(Not(IsLine(p.id, uom)), items);
      SumZero(g, kept);
      PiecesFromUomLinear(p, uom, 0, 0);
    } else if FindLine(items, p.id, uom).Some? {
      var k :| 0 <= k < |items| && items[k] == FindLine(items, p.id, uom).value && Matches(items[k], p.id, uom);
      UpdateQuantityKeepsLinesDistinct(items, p.id, uom, delta);
      assert r[k] == items[k].(qty := q);
      SumOverDistinctLines(r, p, uom, k);
    } else {
      SumZero(g, items);
      SumConcat(g, items, [LineItem(p.id, q, uom)]);
    }
  }

  /** Without duplicates, the pieces in a (product, unit) pair are those of its one line. */
  lemma {:induction false} SumOverDistinctLines(items: seq<LineItem>, p: Product, uom: Uom, k: nat)
    requires NoDuplicateLines(items) && k < |items| && Matches(items[k], p.id, uom)
    ensures SumOf(SameUnitTerm(p, uom), items) == PiecesFromUom(p, uom, items[k].qty)
  {
    forall i | 0 <= i < |items| && i != k
      ensures SameUnitTerm(p, uom)(items[i]) == 0
    {
      if i < k {
        assert !(items[i].productID == items[k].productID && items[i].uom == items[k].uom);
      } else {
        assert !(items[k].productID == items[i].productID && items[k].uom == items[i].uom);
      }
    }
    SumSingle(SameUnitTerm(p, uom), items, k);
  }

  // ---------------------------------------------------------------------------
  // Summary and expansion

  /** `products.find((prod) => prod._id === id)`. */
  function FindProduct(products: seq<Product>, id: string): (r: Option<Product>)
    ensures r.None? <==> forall i :: 0 <= i < |products| ==> products[i].id != id
    ensures r.Some? ==> r.value in products && r.value.id == id
    ensures r.Some? ==> exists k :: 0 <= k < |products| && products[k] == r.value
                           && forall j :: 0 <= j < k ==> products[j].id != id
    decreases |products|
  {
    if products == [] then None
    else if products[0].id == id then Some(products[0])
    else
      var r := FindProduct(products[1..], id);
      if r.Some? then
        ghost var k :| 0 <= k < |products[1..]| && products[1..][k] == r.value
                       && forall j :: 0 <= j < k ==> products[1..][j].id != id;
        assert products[k + 1] == r.value;
        r
      else r
  }

  function QtyTerm(): LineItem -> int {
    (it: LineItem) => it.qty
  }

  function RewardTerm(products: seq<Product>): LineItem -> int {
    (it: LineItem) => RewardPerUnit(FindProduct(products, it.productID), it.uom) * it.qty
  }

  /** The `summary` reduce: the line count, the raw quantity (units mixed, not pieces)
      and the projected reward points. */
  function SummaryOf(items: seq<LineItem>, products: seq<Product>): (r: Summary)
    ensures r.totalItems == |items|
    ensures r.totalQty == SumOf(QtyTerm(), items)
    ensures r.totalRewards == SumOf(RewardTerm(products), items)
    decreases |items|
  {
    if items == [] then Summary(0, 0, 0)
    else
      var rest := SummaryOf(items[1..], products);
      var it := items[0];
      var rewardPerUnit := RewardPerUnit(FindProduct(products, it.productID), it.uom);
      Summary(it.qty + rest.totalQty, rewardPerUnit * it.qty + rest.totalRewards, 1 + rest.totalItems)
  }

  /** The summary of two lists of lines is the field-wise sum of their summaries, and a
      line whose product is not in the catalog adds its quantity but no reward. */
  lemma {:induction false} SummaryAdds(a: seq<LineItem>, b: seq<LineItem>, products: seq<Product>)
    ensures var s, sa, sb := SummaryOf(a + b, products), SummaryOf(a, products), SummaryOf(b, products);
      s == Summary(sa.totalQty + sb.totalQty, sa.totalRewards + sb.totalRewards, sa.totalItems + sb.totalItems)
  {
    SumConcat(QtyTerm(), a, b);
    SumConcat(RewardTerm(products), a, b);
  }

  lemma {:induction false} UnknownProductEarnsNothing(items: seq<LineItem>, it: LineItem, products: seq<Product>)
    requires forall i :: 0 <= i < |products| ==> products[i].id != it.productID
    ensures SummaryOf(items + [it], products).totalRewards == SummaryOf(items, products).totalRewards
    ensures SummaryOf(items + [it], products).totalQty == SummaryOf(items, products).totalQty + it.qty
  {
    assert FindProduct(products, it.productID).None?;
    assert [it][1..] == [];
    assert SummaryOf([it], products) == Summary(it.qty, 0, 1);
    SummaryAdds(items, [it], products);
  }

  /** `toggleProduct` on the expanded set. */
  function Toggled(s: set<string>, id: string): (r: set<string>)
    ensures id in r <==> id !in s
    ensures forall x :: x != id ==> (x in r <==> x in s)
  {
    if id in s then s - {id} else s + {id}
  }

  lemma {:induction false} ToggleTwice(s: set<string>, id: string)
    ensures Toggled(Toggled(s, id), id) == s
  {
  }

  // ---------------------------------------------------------------------------
  // The unit buttons

  /** Looking a key up in the available-units record: `availableUnits[key]`. */
  function UnitsField(units: Units, key: string): Option<int> {
    if key == "pieces" then Some(units.pieces)
    else if key == "dozens" then Some(units.dozens)
    else if key == "boxes" then Some(units.boxes)
    else if key == "cartons" then Some(units.cartons)
    else None
  }

  /** The key the button computes: `option.value.toLowerCase() + "s"`. */
  function UnitKey(uom: Uom): string {
    ToLower(UomName(uom)) + "s"
  }

  /** `isDisabled` of a unit button, as written. */
  predicate UnitButtonDisabled(showStock: bool, role: string, units: Units, uom: Uom) {
    showStock && role != CompanyRole &&
    (UnitsField(units, UnitKey(uom)).None? || UnitsField(units, UnitKey(uom)) == Some(0))
  }

  /** As written, the key for BOX is "boxs", which the record lacks: the BOX button is
      disabled whenever stock is shown to a non-Company user, whatever the stock. */
  lemma {:induction false} BoxButtonAlwaysDisabled(showStock: bool, role: string, units: Units)
    requires showStock && role != CompanyRole
    ensures UnitButtonDisabled(showStock, role, units, Box)
    ensures UnitsField(units, UnitKey(Box)).None?
  {
    assert ToLower("BOX") == "box";
    assert UnitKey(Box) == "boxs";
  }

  /** The count of available units for a known unit. */
  function UnitCount(units: Units, uom: Uom): int
    requires !uom.Other?
  {
    match uom
    case Piece => units.pieces
    case Dozen => units.dozens
    case Box => units.boxes
    case Carton => units.cartons
  }

  /** The record key each unit evidently means. */
  function IntendedUnitKey(uom: Uom): string {
    match uom
    case Piece => "pieces"
    case Dozen => "dozens"
    case Box => "boxes"
    case Carton => "cartons"
    case Other(_) => UnitKey(uom)
  }

  /** `isDisabled` with the intended key. */
  predicate UnitButtonDisabledIntended(showStock: bool, role: string, units: Units, uom: Uom) {
    showStock && role != CompanyRole &&
    (UnitsField(units, IntendedUnitKey(uom)).None? || UnitsField(units, IntendedUnitKey(uom)) == Some(0))
  }

  /** With the intended key, a known unit's button is disabled exactly when stock is shown
      to a non-Company user and none of that unit is available; PIECE, DOZEN and CARTON
      behave so as written too. */
  lemma {:induction false} IntendedButtonDisabledIff(showStock: bool, role: string, units: Units, uom: Uom)
    requires !uom.Other?
    ensures UnitButtonDisabledIntended(showStock, role, units, uom) <==>
      showStock && role != CompanyRole && UnitCount(units, uom) == 0
    ensures uom != Box ==> UnitButtonDisabled(showStock, role, units, uom) == UnitButtonDisabledIntended(showStock, role, units, uom)
  {
    match uom
    case Piece => assert ToLower("PIECE") == "piece"; assert UnitKey(uom) == "pieces";
    case Dozen => assert ToLower("DOZEN") == "dozen"; assert UnitKey(uom) == "dozens";
    case Carton => assert ToLower("CARTON") == "carton"; assert UnitKey(uom) == "cartons";
    case Box =>
  }

  // ---------------------------------------------------------------------------
  // Behaviour the source has, shown on concrete drafts

  /** A product with an allocation of `pieces` pieces and no sizes or rates. */
  function Allocated(id: string, pieces: int): Product {
    Product(id, "", "", "", "", "", NotFinite, NotFinite, NotFinite, NotFinite, NotFinite, NotFinite,
            Some(Allocation(Finite(pieces), NotFinite, "")))
  }

  /** `addUnit` runs no guard and does not merge lines: adding PIECE twice to an empty
      draft of a product with one allocated piece yields two lines and two pieces. */
  lemma {:induction false} AddUnitSkipsGuardAndDuplicates()
    ensures var p := Allocated("p", 1);
      var r := AddedUnit(AddedUnit([], p, Piece), p, Piece);
      && r == [LineItem("p", 1, Piece), LineItem("p", 1, Piece)]
      && !NoDuplicateLines(r)
      && ProductPieces(r, p) == 2 > AllocatedPieces(Some(p))
  {
    var p := Allocated("p", 1);
    var line := LineItem("p", 1, Piece);
    assert AddedUnit([], p, Piece) == [line];
    var r := [line, line];
    assert AddedUnit([line], p, Piece) == r;
    assert r[0].productID == r[1].productID && r[0].uom == r[1].uom;
    SumOfPair(ProductTerm(p), line, line);
    assert ProductTerm(p)(line) == 1;
  }

  /** With duplicate lines the guard undercounts: two PIECE lines of 1 against an
      allocation of 2 let an increment through that leaves 4 pieces on the draft. */
  lemma {:induction false} DuplicateLinesEscapeGuard()
    ensures var p := Allocated("p", 2);
      var items := [LineItem("p", 1, Piece), LineItem("p", 1, Piece)];
      var r := QuantityChanged(items, p, Piece, 1, "Dealer", true);
      && r == [LineItem("p", 2, Piece), LineItem("p", 2, Piece)]
      && ProductPieces(r, p) == 4 > AllocatedPieces(Some(p))
  {
    var p := Allocated("p", 2);
    var line := LineItem("p", 1, Piece);
    var items := [line, line];
    assert CurrentQty(items, "p", Piece) == 1;
    assert LinesOf(items, "p") == items by {
      FilterKeepsAll(OfProduct("p"), items);
    }
    SumOfPair(GuardTerm(p, Piece), line, line);
    assert StockAvailable(items, p, Piece, 2, "Dealer", true);
    QuantityChangedCases(items, p, Piece, 1, "Dealer", true);
    UpdatedItemsCases(items, "p", Piece, 1);
    var doubled := LineItem("p", 2, Piece);
    var r := SetQty(items, "p", Piece, 2);
    assert r == [doubled, doubled];
    SumOfPair(ProductTerm(p), doubled, doubled);
    assert ProductTerm(p)(doubled) == 2;
  }

  /** The guard also runs on decrements: on a draft already over its allocation,
      the minus button is refused as well. */
  lemma {:induction false} DecrementCanBeRefused()
    ensures var p := Allocated("p", 3);
      var items := [LineItem("p", 5, Piece)];
      && !StockAvailable(items, p, Piece, 4, "Dealer", true)
      && QuantityChanged(items, p, Piece, -1, "Dealer", true) == items
  {
    var p := Allocated("p", 3);
    var items := [LineItem("p", 5, Piece)];
    assert CurrentQty(items, "p", Piece) == 5;
    assert LinesOf(items, "p") == items by {
      FilterKeepsAll(OfProduct("p"), items);
    }
    assert SumOf(GuardTerm(p, Piece), items) == 0;
  }

  /** The guard counts units in pieces and replaces the edited line: with 100 pieces allocated
      and a line of 5 boxes of 10, asking for 6 boxes is allowed (60 pieces), while adding a
      carton of 60 on top of the 50 pieces is refused (110 pieces). */
  lemma {:induction false} MixedUnitsGuardExample()
    ensures var p := Product("p", "", "", "", "", "", Finite(10), Finite(60), NotFinite, NotFinite, NotFinite, NotFinite,
                             Some(Allocation(Finite(100), NotFinite, "")));
      var items := [LineItem("p", 5, Box)];
      && StockAvailable(items, p, Box, 6, "Dealer", true)
      && !StockAvailable(items, p, Carton, 1, "Dealer", true)
  {
    var p := Product("p", "", "", "", "", "", Finite(10), Finite(60), NotFinite, NotFinite, NotFinite, NotFinite,
                     Some(Allocation(Finite(100), NotFinite, "")));
    var items := [LineItem("p", 5, Box)];
    assert LinesOf(items, "p") == items by {
      FilterKeepsAll(OfProduct("p"), items);
    }
    var line := items[0];
    assert items[1..] == [];
    assert GuardTerm(p, Box)(line) == 0;
    assert SumOf(GuardTerm(p, Box), items) == GuardTerm(p, Box)(line) + SumOf(GuardTerm(p, Box), []);
    assert GuardTerm(p, Carton)(line) == PiecesFromUom(p, Box, 5) == 50;
    assert SumOf(GuardTerm(p, Carton), items) == GuardTerm(p, Carton)(line) + SumOf(GuardTerm(p, Carton), []);
    assert PiecesFromUom(p, Box, 6) == 60 && PiecesFromUom(p, Carton, 1) == 60;
  }

  /** The available-units card and the guard agree on a fresh draft with a positive box
      size: the shown box count is the largest number of boxes the guard accepts. */
  lemma {:induction false} AvailableBoxesAreGuardLimit(p: Product, role: string)
    requires role != CompanyRole
    requires p.boxQuantity.Finite? && p.boxQuantity.n > 0
    requires AllocatedPieces(Some(p)) > 0
    ensures var n := AvailableUnits(Some(p), AllocatedPieces(Some(p))).boxes;
      StockAvailable([], p, Box, n, role, true) && !StockAvailable([], p, Box, n + 1, role, true)
  {
    var n := AvailableUnits(Some(p), AllocatedPieces(Some(p))).boxes;
    var size := p.boxQuantity.n;
    assert PiecesFromUom(p, Box, n) == n * size;
    assert PiecesFromUom(p, Box, n + 1) == (n + 1) * size;
  }

  // ---------------------------------------------------------------------------
  // The builder's state

  /** The builder component: the parent-owned line list (updated through `onChange`)
      and the set of expanded product cards. */
  class Selector {
    const products: seq<Product>
    const userRole: string
    const showStock: bool
    /** Whether the parent passed an `onChange` callback; without one no edit is seen. */
    const hasOnChange: bool
    var items: seq<LineItem>
    var expanded: set<string>

    constructor (products: seq<Product>, items: seq<LineItem>, userRole: string, showStock: bool, hasOnChange: bool)
      ensures this.products == products && this.items == items && this.userRole == userRole
      ensures this.showStock == showStock && this.hasOnChange == hasOnChange
      ensures expanded == {}
    {
      this.products := products;
      this.items := items;
      this.userRole := userRole;
      this.showStock := showStock;
      this.hasOnChange := hasOnChange;
      expanded := {};
    }

    /** `updateItems`: hands the new list to the parent, if it listens. */
    method UpdateItems(next: seq<LineItem>)
      modifies this`items
      ensures items == if hasOnChange then next else old(items)
    {
      if hasOnChange {
        items := next;
      }
    }

    /** `checkStockAvailability` against the current lines. */
    predicate CheckStockAvailability(p: Product, uom: Uom, requestedQty: int)
      reads this
    {
      StockAvailable(items, p, uom, requestedQty, userRole, showStock)
    }

    /** The `summary` of the current lines. */
    function CurrentSummary(): (s: Summary)
      reads this
      ensures s.totalItems == |items|
    {
      SummaryOf(items, products)
    }

    method ToggleProduct(id: string)
      modifies this`expanded
      ensures expanded == Toggled(old(expanded), id)
    {
      if id in expanded {
        expanded := expanded - {id};
      } else {
        expanded := expanded + {id};
      }
    }

    method AddUnit(p: Product, uom: Uom)
      modifies this
      ensures items == if hasOnChange then AddedUnit(old(items), p, uom) else old(items)
      ensures expanded == if p.id == "" then old(expanded) else old(expanded) + {p.id}
    {
      if p.id == "" {
        return;
      }
      UpdateItems(items + [LineItem(p.id, 1, uom)]);
      expanded := expanded + {p.id};
    }

    method UpdateQuantity(p: Product, uom: Uom, delta: int)
      modifies this`items
      ensures items == if hasOnChange then UpdatedItems(old(items), p.id, uom, delta) else old(items)
    {
      if p.id == "" {
        return;
      }
      UpdatedItemsCases(items, p.id, uom, delta);
      var existing := FindLine(items, p.id, uom);
      var currentQty := if existing.Some? then existing.value.qty else 0;
      var newQty := Max(0, currentQty + delta);
      if newQty == 0 {
        UpdateItems(Filter(Not(IsLine(p.id, uom)), items));
      } else if existing.Some? {
        UpdateItems(SetQty(items, p.id, uom, newQty));
      } else {
        UpdateItems(items + [LineItem(p.id, newQty, uom)]);
      }
    }

    method RemoveUnit(id: string, uom: Uom)
      modifies this`items
      ensures items == if hasOnChange then RemovedUnit(old(items), id, uom) else old(items)
    {
      UpdateItems(Filter(Not(IsLine(id, uom)), items));
    }

    /** `handleQuantityChange`; `stockRefused` is the "Stock Not Available" notification. */
    method HandleQuantityChange(p: Product, uom: Uom, delta: int) returns (stockRefused: bool)
      modifies this`items
      ensures stockRefused <==> CurrentQty(old(items), p.id, uom) + delta >= 0 &&
                                !StockAvailable(old(items), p, uom, CurrentQty(old(items), p.id, uom) + delta, userRole, showStock)
      ensures items == if hasOnChange then QuantityChanged(old(items), p, uom, delta, userRole, showStock) else old(items)
    {
      QuantityChangedCases(items, p, uom, delta, userRole, showStock);
      stockRefused := false;
      var current := FindLine(items, p.id, uom);
      var newQty := (if current.Some? then current.value.qty else 0) + delta;
      assert newQty == CurrentQty(items, p.id, uom) + delta;
      if newQty < 0 {
        return;
      }
      if !CheckStockAvailability(p, uom, newQty) {
        stockRefused := true;
        return;
      }
      UpdateQuantity(p, uom, delta);
    }
  }
}

/** The cart store of `src/store/cartStore.ts`: the state `{items, isOpen}` and
    the operations the store's `set` callbacks perform, each as a pure
    state-to-state function. The `get()` readers `getTotalPrice` and
    `getTotalItems` are the `reduce` loops at the end. */
module CartStore {
  import opened Wrappers
  import opened Seqs
  import opened MenuTypes

  datatype CartState = CartState(items: seq<CartItem>, isOpen: bool)

  /** The store's initial value: no items, drawer closed. */
  const EmptyCart := CartState([], false)

  /** A line's total is its own unit price times its quantity, and the
      quantity is at least one. */
  predicate LineConsistent(line: CartItem) {
    line.quantity >= 1 && line.totalPrice == line.item.price * line.quantity
  }

  predicate WellFormed(s: CartState) {
    forall line :: line in s.items ==> LineConsistent(line)
  }

  /** The `find` test of addItem: same id, same selected spice level and
      equal customizations (`JSON.stringify` of a string array, or of
      `undefined`, is equal exactly when the values are equal). */
  function SelectionOf(id: string, spice: Option<SpiceLevel>, custom: Option<seq<string>>): CartItem -> bool {
    (line: CartItem) => line.item.id == id && line.selectedSpiceLevel == spice && line.customizations == custom
  }

  /** The test addItem's increment step uses: same id and spice level,
      whatever the customizations. */
  function VariantOf(id: string, spice: Option<SpiceLevel>): CartItem -> bool {
    (line: CartItem) => line.item.id == id && line.selectedSpiceLevel == spice
  }

  /** The test removeItem keeps lines by. */
  function OtherId(id: string): CartItem -> bool {
    (line: CartItem) => line.item.id != id
  }

  predicate HasSelection(items: seq<CartItem>, id: string, spice: Option<SpiceLevel>, custom: Option<seq<string>>) {
    exists i :: 0 <= i < |items| && SelectionOf(id, spice, custom)(items[i])
  }

  predicate HasId(items: seq<CartItem>, id: string) {
    exists i :: 0 <= i < |items| && items[i].item.id == id
  }

  /** `after` is `before` with one more unit, its total re-derived from its
      own unit price; nothing else about the line changes. */
  predicate Incremented(before: CartItem, after: CartItem) {
    && after.item == before.item
    && after.selectedSpiceLevel == before.selectedSpiceLevel
    && after.customizations == before.customizations
    && after.quantity == before.quantity + 1
    && after.totalPrice == before.item.price * after.quantity
  }

  /** `after` is `before` with quantity `q`, its total re-derived from its own
      unit price; nothing else about the line changes. */
  predicate Resized(before: CartItem, after: CartItem, q: int) {
    && after.item == before.item
    && after.selectedSpiceLevel == before.selectedSpiceLevel
    && after.customizations == before.customizations
    && after.quantity == q
    && after.totalPrice == before.item.price * q
  }

  /** addItem's update of a matching line: one more unit, and the total
      re-derived from the line's own unit price. */
  function Bump(line: CartItem): (r: CartItem)
    ensures Incremented(line, r)
  {
    line.(quantity := line.quantity + 1, totalPrice := line.item.price * (line.quantity + 1))
  }

  /** The `map` of addItem's increment step: every line passing `p` gains one
      unit, the others are kept as they are. */
  function IncrementWhere(items: seq<CartItem>, p: CartItem -> bool): (r: seq<CartItem>)
    ensures |r| == |items|
    ensures forall i :: 0 <= i < |items| ==>
      if p(items[i]) then Incremented(items[i], r[i]) else r[i] == items[i]
  {
    seq(|items|, k requires 0 <= k < |items| =>
      if p(items[k]) then Bump(items[k]) else items[k])
  }

  lemma IncrementWhereWellFormed(items: seq<CartItem>, p: CartItem -> bool)
    ensures WellFormed(CartState(items, false)) ==> WellFormed(CartState(IncrementWhere(items, p), false))
  {
    var r := IncrementWhere(items, p);
    forall line | line in r && WellFormed(CartState(items, false))
      ensures LineConsistent(line)
    {
      var i :| 0 <= i < |r| && r[i] == line;
      assert items[i] in items;
    }
  }

  /** addItem(item, spiceLevel, customizations). */
  function AddItem(s: CartState, item: MenuItem, spice: Option<SpiceLevel>, custom: Option<seq<string>>): (r: CartState)
    ensures r.isOpen == s.isOpen
    ensures !HasSelection(s.items, item.id, spice, custom) ==>
      r.items == s.items + [CartItem(item, 1, spice, custom, item.price)]
    ensures HasSelection(s.items, item.id, spice, custom) ==>
      && |r.items| == |s.items|
      && forall i :: 0 <= i < |s.items| ==>
           if VariantOf(item.id, spice)(s.items[i]) then Incremented(s.items[i], r.items[i])
           else r.items[i] == s.items[i]
    ensures WellFormed(s) ==> WellFormed(r)
  {
    match Find(SelectionOf(item.id, spice, custom), s.items)
    case Some(existing) =>
      assert existing.item.id == item.id && existing.selectedSpiceLevel == spice;
      var bumped := VariantOf(existing.item.id, existing.selectedSpiceLevel);
      IncrementWhereWellFormed(s.items, bumped);
      s.(items := IncrementWhere(s.items, bumped))
    case None =>
      s.(items := s.items + [CartItem(item, 1, spice, custom, item.price)])
  }

  /** removeItem(itemId): every line of that id goes, whatever its spice
      level or customizations; the rest keep their order. */
  function RemoveItem(s: CartState, id: string): (r: CartState)
    ensures r.isOpen == s.isOpen
    ensures forall line :: line in r.items <==> line in s.items && line.item.id != id
    ensures forall line :: multiset(r.items)[line] == if line.item.id == id then 0 else multiset(s.items)[line]
    ensures IsSubseq(r.items, s.items)
    ensures !HasId(s.items, id) ==> r == s
    ensures WellFormed(s) ==> WellFormed(r)
  {
    FilterAllPass(OtherId(id), s.items);
    s.(items := Filter(OtherId(id), s.items))
  }

  /** updateQuantity(itemId, quantity): a non-positive quantity removes the
      id; otherwise every line of that id gets the new quantity. */
  function UpdateQuantity(s: CartState, id: string, quantity: int): (r: CartState)
    ensures quantity <= 0 ==> r == RemoveItem(s, id)
    ensures quantity > 0 ==>
      && r.isOpen == s.isOpen
      && |r.items| == |s.items|
      && forall i :: 0 <= i < |s.items| ==>
           if s.items[i].item.id == id then Resized(s.items[i], r.items[i], quantity)
           else r.items[i] == s.items[i]
    ensures WellFormed(s) ==> WellFormed(r)
  {
    if quantity <= 0 then RemoveItem(s, id)
    else
      s.(items := seq(|s.items|, k requires 0 <= k < |s.items| =>
        var line := s.items[k];
        if line.item.id == id then line.(quantity := quantity, totalPrice := line.item.price * quantity)
        else line))
  }

  function LineTotal(line: CartItem): int { line.totalPrice }

  function LineQuantity(line: CartItem): int { line.quantity }

  /** The value getTotalPrice returns. */
  function TotalPrice(s: CartState): int { Sum(LineTotal, s.items) }

  /** The value getTotalItems returns. */
  function TotalItems(s: CartState): int { Sum(LineQuantity, s.items) }

  /** clearCart(): `set({ items: [] })` merges, so isOpen is kept. */
  function ClearCart(s: CartState): (r: CartState)
    ensures r.items == [] && r.isOpen == s.isOpen
    ensures TotalPrice(r) == 0 && TotalItems(r) == 0
  {
    s.(items := [])
  }

  /** toggleCart(). */
  function ToggleCart(s: CartState): (r: CartState)
    ensures r.isOpen != s.isOpen && r.items == s.items
  {
    s.(isOpen := !s.isOpen)
  }

  /** getTotalPrice(): `items.reduce((total, item) => total + item.totalPrice, 0)`. */
  method GetTotalPrice(s: CartState) returns (total: int)
    ensures total == TotalPrice(s)
    ensures s.items == [] ==> total == 0
  {
    total := 0;
    var i := 0;
    while i < |s.items|
      invariant 0 <= i <= |s.items|
      invariant total == Sum(LineTotal, s.items[..i])
    {
      assert s.items[..i + 1] == s.items[..i] + [s.items[i]];
      SumAppend(LineTotal, s.items[..i], [s.items[i]]);
      total := total + s.items[i].totalPrice;
      i := i + 1;
    }
    assert s.items[..i] == s.items;
  }

  /** getTotalItems(): `items.reduce((total, item) => total + item.quantity, 0)`. */
  method GetTotalItems(s: CartState) returns (total: int)
    ensures total == TotalItems(s)
    ensures s.items == [] ==> total == 0
  {
    total := 0;
    var i := 0;
    while i < |s.items|
      invariant 0 <= i <= |s.items|
      invariant total == Sum(LineQuantity, s.items[..i])
    {
      assert s.items[..i + 1] == s.items[..i] + [s.items[i]];
      SumAppend(LineQuantity, s.items[..i], [s.items[i]]);
      total := total + s.items[i].quantity;
      i := i + 1;
    }
    assert s.items[..i] == s.items;
  }

  // ---------------------------------------------------------------------
  // Sequences of store calls

  /** One call into the store, as the UI makes them. */
  datatype CartAction =
    | AddAction(item: MenuItem, spice: Option<SpiceLevel>, custom: Option<seq<string>>)
    | RemoveAction(id: string)
    | UpdateAction(id: string, quantity: int)
    | ClearAction
    | ToggleAction

  function Apply(s: CartState, a: CartAction): (r: CartState)
    ensures WellFormed(s) ==> WellFormed(r)
  {
    match a
    case AddAction(item, spice, custom) => AddItem(s, item, spice, custom)
    case RemoveAction(id) => RemoveItem(s, id)
    case UpdateAction(id, q) => UpdateQuantity(s, id, q)
    case ClearAction => ClearCart(s)
    case ToggleAction => ToggleCart(s)
  }

  function Run(s: CartState, actions: seq<CartAction>): CartState
    decreases |actions|
  {
    if |actions| == 0 then s else Run(Apply(s, actions[0]), actions[1..])
  }

  /** Every line of every cart the store can reach has quantity at least one
      and total equal to unit price times quantity. */
  lemma {:induction false} RunPreservesWellFormed(s: CartState, actions: seq<CartAction>)
    requires WellFormed(s)
    ensures WellFormed(Run(s, actions))
    decreases |actions|
  {
    if |actions| > 0 {
      RunPreservesWellFormed(Apply(s, actions[0]), actions[1..]);
    }
  }

  lemma ReachableCartsWellFormed(actions: seq<CartAction>)
    ensures WellFormed(Run(EmptyCart, actions))
  {
    RunPreservesWellFormed(EmptyCart, actions);
  }

  // ---------------------------------------------------------------------
  // Properties relating several calls

  /** n identical addItem calls. */
  function AddItemTimes(s: CartState, item: MenuItem, spice: Option<SpiceLevel>, custom: Option<seq<string>>, n: nat): CartState
    decreases n
  {
    if n == 0 then s else AddItem(AddItemTimes(s, item, spice, custom, n - 1), item, spice, custom)
  }

  /** One more call after n calls is n + 1 calls. */
  lemma AddItemTimesStep(s: CartState, item: MenuItem, spice: Option<SpiceLevel>, custom: Option<seq<string>>, n: nat)
    ensures AddItemTimes(s, item, spice, custom, n + 1) == AddItem(AddItemTimes(s, item, spice, custom, n), item, spice, custom)
  {
  }

  /** addItem of an id the cart does not hold appends a line of one unit. */
  lemma AddItemFreshId(s: CartState, item: MenuItem, spice: Option<SpiceLevel>, custom: Option<seq<string>>)
    requires !HasId(s.items, item.id)
    ensures AddItem(s, item, spice, custom) == CartState(s.items + [CartItem(item, 1, spice, custom, item.price)], s.isOpen)
  {
  }

  /** One more identical addItem on a cart whose only line of the item's id is
      the last one, and is of the same selection, bumps that line. */
  lemma AddItemOntoOwnLine(s: CartState, item: MenuItem, spice: Option<SpiceLevel>, custom: Option<seq<string>>, last: CartItem)
    requires !HasId(s.items, item.id)
    requires last.item == item && last.selectedSpiceLevel == spice && last.customizations == custom
    ensures AddItem(CartState(s.items + [last], s.isOpen), item, spice, custom) == CartState(s.items + [Bump(last)], s.isOpen)
  {
    var prev := CartState(s.items + [last], s.isOpen);
    assert prev.items[|s.items|] == last;
    assert HasSelection(prev.items, item.id, spice, custom);
    var next := AddItem(prev, item, spice, custom);
    forall i | 0 <= i < |s.items|
      ensures next.items[i] == s.items[i]
    {
      assert prev.items[i] == s.items[i];
      assert s.items[i].item.id != item.id;
    }
    assert next.items == s.items + [Bump(last)];
  }

  /** The line n identical addItem calls build up: one unit, then n - 1 bumps. */
  function MergedLine(item: MenuItem, spice: Option<SpiceLevel>, custom: Option<seq<string>>, n: nat): (r: CartItem)
    requires n >= 1
    ensures r.item == item && r.selectedSpiceLevel == spice && r.customizations == custom
  {
    if n == 1 then CartItem(item, 1, spice, custom, item.price)
    else Bump(MergedLine(item, spice, custom, n - 1))
  }

  /** The merged line has quantity n and total n times the unit price. */
  lemma {:induction false} MergedLineShape(item: MenuItem, spice: Option<SpiceLevel>, custom: Option<seq<string>>, n: nat)
    requires n >= 1
    ensures MergedLine(item, spice, custom, n) == CartItem(item, n, spice, custom, item.price * n)
  {
    if n > 1 {
      MergedLineShape(item, spice, custom, n - 1);
    }
  }

  /** From a cart holding no line of the item's id, n identical addItem calls
      leave one new line at the end with quantity n and total n * price. */
  lemma RepeatedAddMerges(s: CartState, item: MenuItem, spice: Option<SpiceLevel>, custom: Option<seq<string>>, n: nat)
    requires n >= 1
    requires !HasId(s.items, item.id)
    ensures AddItemTimes(s, item, spice, custom, n) == CartState(s.items + [CartItem(item, n, spice, custom, item.price * n)], s.isOpen)
  {
    RepeatedAddBuildsLine(s, item, spice, custom, n);
    MergedLineShape(item, spice, custom, n);
  }

  lemma {:induction false} RepeatedAddBuildsLine(s: CartState, item: MenuItem, spice: Option<SpiceLevel>, custom: Option<seq<string>>, n: nat)
    requires n >= 1
    requires !HasId(s.items, item.id)
    ensures AddItemTimes(s, item, spice, custom, n) == CartState(s.items + [MergedLine(item, spice, custom, n)], s.isOpen)
  {
    if n == 1 {
      AddItemFreshId(s, item, spice, custom);
    } else {
      RepeatedAddBuildsLine(s, item, spice, custom, n - 1);
      RepeatedAddStep(s, item, spice, custom, n);
    }
  }

  /** The inductive step of RepeatedAddBuildsLine. */
  lemma RepeatedAddStep(s: CartState, item: MenuItem, spice: Option<SpiceLevel>, custom: Option<seq<string>>, n: nat)
    requires n >= 2
    requires !HasId(s.items, item.id)
    requires AddItemTimes(s, item, spice, custom, n - 1) == CartState(s.items + [MergedLine(item, spice, custom, n - 1)], s.isOpen)
    ensures AddItemTimes(s, item, spice, custom, n) == CartState(s.items + [MergedLine(item, spice, custom, n)], s.isOpen)
  {
    AddItemOntoOwnLine(s, item, spice, custom, MergedLine(item, spice, custom, n - 1));
  }

  /** n identical addItem calls on a cart without that id add n units and
      n times the unit price to the totals. */
  lemma RepeatedAddTotals(s: CartState, item: MenuItem, spice: Option<SpiceLevel>, custom: Option<seq<string>>, n: nat)
    requires n >= 1
    requires !HasId(s.items, item.id)
    ensures TotalPrice(AddItemTimes(s, item, spice, custom, n)) == TotalPrice(s) + item.price * n
    ensures TotalItems(AddItemTimes(s, item, spice, custom, n)) == TotalItems(s) + n
  {
    RepeatedAddMerges(s, item, spice, custom, n);
    var line := CartItem(item, n, spice, custom, item.price * n);
    SumAppend(LineTotal, s.items, [line]);
    SumAppend(LineQuantity, s.items, [line]);
  }

  /** Applying the same updateQuantity twice is the same as once. */
  lemma UpdateQuantityIdempotent(s: CartState, id: string, quantity: int)
    ensures UpdateQuantity(UpdateQuantity(s, id, quantity), id, quantity) == UpdateQuantity(s, id, quantity)
  {
    var once := UpdateQuantity(s, id, quantity);
    if quantity <= 0 {
      FilterIdempotent(OtherId(id), s.items);
    } else {
      var twice := UpdateQuantity(once, id, quantity);
      assert twice.items == once.items;
    }
  }

  /** Toggling the drawer twice changes nothing. */
  lemma ToggleCartInvolution(s: CartState)
    ensures ToggleCart(ToggleCart(s)) == s
  {
  }

  /** On a consistent cart, getTotalPrice equals the sum of unit price times
      quantity over the lines. */
  function PriceTimesQuantity(line: CartItem): int { line.item.price * line.quantity }

  lemma {:induction false} TotalPriceIsPriceTimesQuantity(items: seq<CartItem>)
    requires WellFormed(CartState(items, false))
    ensures TotalPrice(CartState(items, false)) == Sum(PriceTimesQuantity, items)
  {
    if |items| > 0 {
      assert items[0] in items;
      assert forall line :: line in items[1..] ==> line in items;
      TotalPriceIsPriceTimesQuantity(items[1..]);
    }
  }

  /** On a consistent cart, getTotalItems counts at least one per line. */
  lemma {:induction false} TotalItemsAtLeastLines(items: seq<CartItem>)
    requires WellFormed(CartState(items, false))
    ensures TotalItems(CartState(items, false)) >= |items|
  {
    if |items| > 0 {
      assert items[0] in items;
      assert forall line :: line in items[1..] ==> line in items;
      TotalItemsAtLeastLines(items[1..]);
    }
  }

  /** An addItem that opens a new line adds one unit and the item's price to
      the totals. */
  lemma AddItemNewLineTotals(s: CartState, item: MenuItem, spice: Option<SpiceLevel>, custom: Option<seq<string>>)
    requires !HasSelection(s.items, item.id, spice, custom)
    ensures TotalItems(AddItem(s, item, spice, custom)) == TotalItems(s) + 1
    ensures TotalPrice(AddItem(s, item, spice, custom)) == TotalPrice(s) + item.price
  {
    var line := CartItem(item, 1, spice, custom, item.price);
    SumAppend(LineQuantity, s.items, [line]);
    SumAppend(LineTotal, s.items, [line]);
  }

  /** If `b` is `a` with exactly the lines satisfying `p` raised by one unit,
      getTotalItems grows by the number of such lines. */
  lemma {:induction false} BumpedQuantities(p: CartItem -> bool, a: seq<CartItem>, b: seq<CartItem>)
    requires |a| == |b|
    requires forall i :: 0 <= i < |a| ==> if p(a[i]) then b[i].quantity == a[i].quantity + 1 else b[i] == a[i]
    ensures Sum(LineQuantity, b) == Sum(LineQuantity, a) + |Filter(p, a)|
  {
    if |a| > 0 {
      assert forall i :: 0 <= i < |a| - 1 ==> a[1..][i] == a[i + 1] && b[1..][i] == b[i + 1];
      BumpedQuantities(p, a[1..], b[1..]);
    }
  }

  /** An addItem that finds a matching line adds one unit for EVERY line of
      the same id and spice level, not just for the matching line. */
  lemma AddItemMatchTotals(s: CartState, item: MenuItem, spice: Option<SpiceLevel>, custom: Option<seq<string>>)
    requires HasSelection(s.items, item.id, spice, custom)
    ensures TotalItems(AddItem(s, item, spice, custom)) == TotalItems(s) + |Filter(VariantOf(item.id, spice), s.items)|
  {
    var r := AddItem(s, item, spice, custom);
    BumpedQuantities(VariantOf(item.id, spice), s.items, r.items);
  }

  // ---------------------------------------------------------------------
  // addItem's increment step, as written and as evidently intended

  /** Two lines a `find` with the same arguments cannot tell apart. */
  predicate SameKey(a: CartItem, b: CartItem) {
    a.item.id == b.item.id && a.selectedSpiceLevel == b.selectedSpiceLevel && a.customizations == b.customizations
  }

  /** No two lines share (id, spice level, customizations). */
  predicate KeysUnique(items: seq<CartItem>) {
    forall i, j :: 0 <= i < j < |items| ==> !SameKey(items[i], items[j])
  }

  /** If a found line exists, a line of the same id and spice level but other
      customizations is raised by one unit too, and getTotalItems grows by at
      least two for a single addItem call. */
  lemma AddItemBumpsSiblingVariant(s: CartState, item: MenuItem, spice: Option<SpiceLevel>, custom: Option<seq<string>>, j: int)
    requires HasSelection(s.items, item.id, spice, custom)
    requires 0 <= j < |s.items|
    requires s.items[j].item.id == item.id && s.items[j].selectedSpiceLevel == spice
    requires s.items[j].customizations != custom
    ensures AddItem(s, item, spice, custom).items[j].quantity == s.items[j].quantity + 1
    ensures TotalItems(AddItem(s, item, spice, custom)) >= TotalItems(s) + 2
  {
    AddItemMatchTotals(s, item, spice, custom);
    var i :| 0 <= i < |s.items| && SelectionOf(item.id, spice, custom)(s.items[i]);
    var f := Filter(VariantOf(item.id, spice), s.items);
    assert s.items[i] in s.items && s.items[j] in s.items;
    assert s.items[i] in f && s.items[j] in f;
    assert s.items[i] != s.items[j];
    TwoDistinctMembers(f, s.items[i], s.items[j]);
  }

  /** addItem with the increment step restricted to the line `find` matched:
      the lines that share the full (id, spice level, customizations) key. */
  function AddItemExact(s: CartState, item: MenuItem, spice: Option<SpiceLevel>, custom: Option<seq<string>>): (r: CartState)
    ensures r.isOpen == s.isOpen
    ensures !HasSelection(s.items, item.id, spice, custom) ==>
      r.items == s.items + [CartItem(item, 1, spice, custom, item.price)]
    ensures HasSelection(s.items, item.id, spice, custom) ==>
      && |r.items| == |s.items|
      && forall i :: 0 <= i < |s.items| ==>
           if SelectionOf(item.id, spice, custom)(s.items[i]) then Incremented(s.items[i], r.items[i])
           else r.items[i] == s.items[i]
    ensures WellFormed(s) ==> WellFormed(r)
  {
    match Find(SelectionOf(item.id, spice, custom), s.items)
    case Some(existing) =>
      var bumped := SelectionOf(existing.item.id, existing.selectedSpiceLevel, existing.customizations);
      IncrementWhereWellFormed(s.items, bumped);
      s.(items := IncrementWhere(s.items, bumped))
    case None =>
      s.(items := s.items + [CartItem(item, 1, spice, custom, item.price)])
  }

  /** The corrected addItem never creates a second line for a key. */
  lemma AddItemExactKeepsKeysUnique(s: CartState, item: MenuItem, spice: Option<SpiceLevel>, custom: Option<seq<string>>)
    requires KeysUnique(s.items)
    ensures KeysUnique(AddItemExact(s, item, spice, custom).items)
  {
    var r := AddItemExact(s, item, spice, custom);
    if HasSelection(s.items, item.id, spice, custom) {
      forall i, j | 0 <= i < j < |r.items|
        ensures !SameKey(r.items[i], r.items[j])
      {
        assert SameKey(r.items[i], s.items[i]) && SameKey(r.items[j], s.items[j]);
      }
    } else {
      forall i, j | 0 <= i < j < |r.items|
        ensures !SameKey(r.items[i], r.items[j])
      {
        if j == |s.items| {
          assert !SelectionOf(item.id, spice, custom)(s.items[i]);
        }
      }
    }
  }

  /** With unique keys, at most one line matches a key. */
  lemma {:induction false} UniqueKeyMatchesOnce(items: seq<CartItem>, id: string, spice: Option<SpiceLevel>, custom: Option<seq<string>>)
    requires KeysUnique(items)
    ensures |Filter(SelectionOf(id, spice, custom), items)| <= 1
  {
    if |items| > 0 {
      var p := SelectionOf(id, spice, custom);
      assert KeysUnique(items[1..]) by {
        forall i, j | 0 <= i < j < |items[1..]|
          ensures !SameKey(items[1..][i], items[1..][j])
        {
          assert items[1..][i] == items[i + 1] && items[1..][j] == items[j + 1];
        }
      }
      UniqueKeyMatchesOnce(items[1..], id, spice, custom);
      if p(items[0]) {
        forall k | 0 <= k < |items[1..]|
          ensures !p(items[1..][k])
        {
          assert items[1..][k] == items[k + 1];
          assert !SameKey(items[0], items[k + 1]);
        }
        FilterNonePass(p, items[1..]);
      }
    }
  }

  /** With unique keys, every corrected addItem adds exactly one unit. */
  lemma AddItemExactAddsOneUnit(s: CartState, item: MenuItem, spice: Option<SpiceLevel>, custom: Option<seq<string>>)
    requires KeysUnique(s.items)
    ensures TotalItems(AddItemExact(s, item, spice, custom)) == TotalItems(s) + 1
  {
    var r := AddItemExact(s, item, spice, custom);
    if HasSelection(s.items, item.id, spice, custom) {
      var p := SelectionOf(item.id, spice, custom);
      BumpedQuantities(p, s.items, r.items);
      UniqueKeyMatchesOnce(s.items, item.id, spice, custom);
      var i :| 0 <= i < |s.items| && p(s.items[i]);
      assert s.items[i] in s.items;
      assert s.items[i] in Filter(p, s.items);
    } else {
      SumAppend(LineQuantity, s.items, [CartItem(item, 1, spice, custom, item.price)]);
    }
  }
}

/** The product customisation dialog of
    `src/components/menu/ProductModal.tsx`: its option tables, its local state
    (quantity, heat level, sides, sauces, note), the displayed total, the
    customization list it builds and the `addToCart` calls it makes. */
module ProductModal {
  import opened Wrappers
  import opened Seqs
  import opened MenuTypes
  import opened CartStore

  datatype HeatLevel = HeatLevel(name: string, flames: nat)

  datatype SideOption = SideOption(id: string, name: string, price: int, image: string)

  datatype SauceOption = SauceOption(id: string, name: string, color: string)

  /** The heat buttons, mildest first; the button icons are not modelled. */
  const HeatLevels: seq<HeatLevel> := [
    HeatLevel("Lemon & Herb", 0),
    HeatLevel("Mild", 1),
    HeatLevel("Medium", 2),
    HeatLevel("Hot", 3),
    HeatLevel("Extra Hot", 4),
    HeatLevel("XX Hot", 5)
  ]

  const SidesOptions: seq<SideOption> := [
    SideOption("fries", "PERi-Peri Fries", 99, "/images/fries.jpg"),
    SideOption("coleslaw", "Coleslaw", 79, "/images/coleslaw.jpg"),
    SideOption("corn", "Grilled Corn", 89, "/images/corn.jpg"),
    SideOption("rice", "Spicy Rice", 99, "/images/rice.jpg")
  ]

  const Sauces: seq<SauceOption> := [
    SauceOption("extra-hot", "Extra Hot", "bg-red-600"),
    SauceOption("hot", "Hot", "bg-red-500"),
    SauceOption("medium", "Medium", "bg-orange-500"),
    SauceOption("mild", "Mild", "bg-yellow-400"),
    SauceOption("lemon-herb", "Lemon & Herb", "bg-green-500"),
    SauceOption("garlic", "Garlic BBQ", "bg-amber-700")
  ]

  /** The dialog's `useState` hooks; `selectedHeat` indexes `HeatLevels`. */
  datatype ModalState = ModalState(
    quantity: int,
    selectedHeat: int,
    selectedSides: seq<string>,
    selectedSauces: seq<string>,
    specialInstructions: string)

  /** The state the dialog opens with and returns to after adding to the cart:
      one unit, "Medium", no sides, the medium sauce, no note. */
  const InitialModal := ModalState(1, 2, [], ["medium"], "")

  /** What every reachable dialog state satisfies. */
  predicate ValidModal(m: ModalState) {
    && m.quantity >= 1
    && 0 <= m.selectedHeat < |HeatLevels|
    && NoDup(m.selectedSides)
    && NoDup(m.selectedSauces)
    && KnownSides(m.selectedSides)
    && KnownSauces(m.selectedSauces)
  }

  /** `id` is the id of a row of the side table. */
  predicate IsSideId(id: string) {
    exists i :: 0 <= i < |SidesOptions| && SidesOptions[i].id == id
  }

  /** `id` is the id of a row of the sauce table. */
  predicate IsSauceId(id: string) {
    exists i :: 0 <= i < |Sauces| && Sauces[i].id == id
  }

  predicate KnownSides(ids: seq<string>) {
    forall id :: id in ids ==> IsSideId(id)
  }

  predicate KnownSauces(ids: seq<string>) {
    forall id :: id in ids ==> IsSauceId(id)
  }

  /** `heatLevels[selectedHeat].name as any`: the heat name handed to the cart
      as its spice level. Every heat name is a spice level name. */
  function HeatSpice(index: int): (r: SpiceLevel)
    requires 0 <= index < |HeatLevels|
    ensures SpiceName(r) == HeatLevels[index].name
  {
    var parsed := ParseSpice(HeatLevels[index].name);
    assert parsed.Some? by {
      if index == 0 { assert SpiceName(LemonAndHerb) == HeatLevels[index].name; }
      else if index == 1 { assert SpiceName(Mild) == HeatLevels[index].name; }
      else if index == 2 { assert SpiceName(Medium) == HeatLevels[index].name; }
      else if index == 3 { assert SpiceName(Hot) == HeatLevels[index].name; }
      else if index == 4 { assert SpiceName(ExtraHot) == HeatLevels[index].name; }
      else { assert SpiceName(XXHot) == HeatLevels[index].name; }
    }
    parsed.value
  }

  function SideWithId(id: string): SideOption -> bool {
    (side: SideOption) => side.id == id
  }

  function SauceWithId(id: string): SauceOption -> bool {
    (sauce: SauceOption) => sauce.id == id
  }

  /** `sidesOptions.find((s) => s.id === sideId)`. */
  function FindSide(id: string): Option<SideOption> {
    Find(SideWithId(id), SidesOptions)
  }

  /** `sauces.find((s) => s.id === sauceId)`. */
  function FindSauce(id: string): Option<SauceOption> {
    Find(SauceWithId(id), Sauces)
  }

  /** What one selected side id adds to the displayed total per unit. */
  function SidePriceOf(id: string): int {
    match FindSide(id)
    case Some(side) => side.price
    case None => 0
  }

  /** The per-unit price of the selected sides the table knows. */
  function SidesPrice(ids: seq<string>): int {
    Sum(SidePriceOf, ids)
  }

  function SideLabel(id: string): Option<string> {
    match FindSide(id)
    case Some(side) => Some("Side: " + side.name)
    case None => None
  }

  function SauceLabel(id: string): Option<string> {
    match FindSauce(id)
    case Some(sauce) => Some("Sauce: " + sauce.name)
    case None => None
  }

  /** The note entry: present only for a non-empty (truthy) text. */
  function NoteLabel(text: string): seq<string> {
    if text == "" then [] else ["Note: " + text]
  }

  /** The customization list handleAddToCart builds: one entry per known
      side in selection order, then one per known sauce in selection order,
      then the note. */
  function Customizations(m: ModalState): seq<string> {
    FilterMap(SideLabel, m.selectedSides) + FilterMap(SauceLabel, m.selectedSauces) + NoteLabel(m.specialInstructions)
  }

  /** When every selected id is in its table, the list holds the entry of
      each selected side in selection order, then the entry of each selected
      sauce in selection order, then the note if there is one. */
  lemma KnownSelectionsListed(m: ModalState)
    requires forall i :: 0 <= i < |m.selectedSides| ==> SideLabel(m.selectedSides[i]).Some?
    requires forall i :: 0 <= i < |m.selectedSauces| ==> SauceLabel(m.selectedSauces[i]).Some?
    ensures |Customizations(m)| == |m.selectedSides| + |m.selectedSauces| + |NoteLabel(m.specialInstructions)|
    ensures forall i :: 0 <= i < |m.selectedSides| ==>
      Customizations(m)[i] == SideLabel(m.selectedSides[i]).value
    ensures forall i :: 0 <= i < |m.selectedSauces| ==>
      Customizations(m)[|m.selectedSides| + i] == SauceLabel(m.selectedSauces[i]).value
    ensures m.specialInstructions != "" ==>
      Customizations(m)[|Customizations(m)| - 1] == "Note: " + m.specialInstructions
  {
    FilterMapPairAllSome(SideLabel, m.selectedSides, SauceLabel, m.selectedSauces, NoteLabel(m.specialInstructions));
  }

  /** The list holds an entry for each selected side, then one for each
      selected sauce, in selection order, then the note if there is one. */
  predicate ListsEverySelection(m: ModalState) {
    && |Customizations(m)| == |m.selectedSides| + |m.selectedSauces| + |NoteLabel(m.specialInstructions)|
    && (forall i :: 0 <= i < |m.selectedSides| ==> SideLabel(m.selectedSides[i]) == Some(Customizations(m)[i]))
    && (forall i :: 0 <= i < |m.selectedSauces| ==>
          SauceLabel(m.selectedSauces[i]) == Some(Customizations(m)[|m.selectedSides| + i]))
  }

  /** Selections made of table ids are listed in full. */
  lemma TableIdsListed(m: ModalState)
    requires KnownSides(m.selectedSides) && KnownSauces(m.selectedSauces)
    ensures ListsEverySelection(m)
  {
    forall i | 0 <= i < |m.selectedSides|
      ensures SideLabel(m.selectedSides[i]).Some?
    {
      assert m.selectedSides[i] in m.selectedSides;
      var j :| 0 <= j < |SidesOptions| && SidesOptions[j].id == m.selectedSides[i];
      assert SideWithId(m.selectedSides[i])(SidesOptions[j]);
    }
    forall i | 0 <= i < |m.selectedSauces|
      ensures SauceLabel(m.selectedSauces[i]).Some?
    {
      assert m.selectedSauces[i] in m.selectedSauces;
      var j :| 0 <= j < |Sauces| && Sauces[j].id == m.selectedSauces[i];
      assert SauceWithId(m.selectedSauces[i])(Sauces[j]);
    }
    KnownSelectionsListed(m);
  }

  /** Every dialog the user can reach selects only table ids, so the list it
      builds names every selected side and sauce. */
  lemma ReachableDialogsListEverySelection(actions: seq<ModalAction>)
    requires forall i :: 0 <= i < |actions| ==> ActionAllowed(actions[i])
    ensures ListsEverySelection(RunModal(InitialModal, actions))
  {
    ReachableModalsValid(actions);
    TableIdsListed(RunModal(InitialModal, actions));
  }

  /** A label names its table entry: "Side: " or "Sauce: " before the name. */
  lemma LabelsNameEntries(id: string)
    ensures SideLabel(id).Some? <==> FindSide(id).Some?
    ensures FindSide(id).Some? ==> SideLabel(id).value == "Side: " + FindSide(id).value.name
    ensures SauceLabel(id).Some? <==> FindSauce(id).Some?
    ensures FindSauce(id).Some? ==> SauceLabel(id).value == "Sauce: " + FindSauce(id).value.name
  {
  }

  /** One `forEach` over selected ids: pushes the entry of every id the
      lookup knows, in order, onto `acc`. */
  method PushEntries(acc: seq<string>, ids: seq<string>, entry: string -> Option<string>) returns (r: seq<string>)
    ensures r == acc + FilterMap(entry, ids)
  {
    r := acc;
    var i := 0;
    while i < |ids|
      invariant 0 <= i <= |ids|
      invariant r == acc + FilterMap(entry, ids[..i])
    {
      FilterMapPrefixStep(entry, ids, i);
      match entry(ids[i]) {
        case Some(e) =>
          assert r + [e] == acc + (FilterMap(entry, ids[..i]) + [e]);
          r := r + [e];
        case None =>
      }
      i := i + 1;
    }
    assert ids[..i] == ids;
  }

  /** handleAddToCart's three `forEach`/`push` steps. */
  method BuildCustomizations(m: ModalState) returns (customizations: seq<string>)
    ensures customizations == Customizations(m)
  {
    var sides := PushEntries([], m.selectedSides, SideLabel);
    var labelled := PushEntries(sides, m.selectedSauces, SauceLabel);
    customizations := labelled;
    if m.specialInstructions != "" {
      customizations := customizations + ["Note: " + m.specialInstructions];
    }
    ConcatFromEmpty(FilterMap(SideLabel, m.selectedSides), FilterMap(SauceLabel, m.selectedSauces), NoteLabel(m.specialInstructions),
      sides, labelled, customizations);
  }

  /** The price the dialog shows: unit price plus the known sides' prices,
      per unit, times the quantity. */
  function DisplayedTotal(item: MenuItem, m: ModalState): int {
    (item.price + SidesPrice(m.selectedSides)) * m.quantity
  }

  /** calculateTotal(): starts from the unit price times the quantity and adds
      each known selected side's price times the quantity. */
  method CalculateTotal(item: MenuItem, m: ModalState) returns (total: int)
    ensures total == DisplayedTotal(item, m)
  {
    var sides := PricedSides(m.selectedSides, m.quantity);
    total := item.price * m.quantity + sides;
    Distribute(item.price, SidesPrice(m.selectedSides), m.quantity);
  }

  /** The `forEach` over the selected sides: each side the table knows adds
      its price times the quantity. */
  method PricedSides(ids: seq<string>, quantity: int) returns (total: int)
    ensures total == SidesPrice(ids) * quantity
  {
    total := 0;
    var i := 0;
    while i < |ids|
      invariant 0 <= i <= |ids|
      invariant total == SidesPrice(ids[..i]) * quantity
    {
      ScaledSumPrefixStep(SidePriceOf, ids, i, quantity);
      match FindSide(ids[i]) {
        case Some(side) =>
          total := total + side.price * quantity;
        case None =>
      }
      i := i + 1;
    }
    assert ids[..i] == ids;
  }

  /** A selected id the side table does not know adds nothing. */
  lemma UnknownSideAddsNothing(ids: seq<string>, id: string)
    requires FindSide(id).None?
    ensures SidesPrice(ids + [id]) == SidesPrice(ids)
  {
    SumAppend(SidePriceOf, ids, [id]);
  }

  /** The minus button: `Math.max(1, quantity - 1)`. */
  function DecreaseQuantity(q: int): (r: int)
    ensures r >= 1
    ensures q >= 2 ==> r == q - 1
    ensures q <= 1 ==> r == 1
  {
    if 1 > q - 1 then 1 else q - 1
  }

  /** The plus button: `quantity + 1`. */
  function IncreaseQuantity(q: int): (r: int)
    ensures r > q
  {
    q + 1
  }

  /** Minus undoes plus on every quantity the dialog can hold. */
  lemma DecreaseUndoesIncrease(q: int)
    requires q >= 1
    ensures DecreaseQuantity(IncreaseQuantity(q)) == q
  {
  }

  /** `prev.filter((id) => id !== x)`'s test. */
  function Differs(x: string): string -> bool {
    (id: string) => id != x
  }

  /** toggleSide / toggleSauce: drop the id if selected, else append it. */
  function Toggle(ids: seq<string>, x: string): (r: seq<string>)
    ensures x in ids ==> x !in r && IsSubseq(r, ids)
    ensures forall y :: y != x ==> (y in r <==> y in ids)
    ensures x !in ids ==> r == ids + [x]
    ensures NoDup(ids) ==> NoDup(r)
  {
    if x in ids then Filter(Differs(x), ids)
    else
      NoDupAppend(ids, x);
      ids + [x]
  }

  /** Toggling an unselected id twice restores the selection. */
  lemma ToggleTwiceRestores(ids: seq<string>, x: string)
    requires x !in ids
    ensures Toggle(Toggle(ids, x), x) == ids
  {
    FilterAppend(Differs(x), ids, [x]);
    FilterAllPass(Differs(x), ids);
    assert Filter(Differs(x), [x]) == [];
  }

  /** One user action inside the dialog. */
  datatype ModalAction =
    | Increase
    | Decrease
    | ChooseHeat(index: int)
    | ToggleSide(sideId: string)
    | ToggleSauce(sauceId: string)
    | EditInstructions(text: string)

  /** The heat, side and sauce buttons are rendered from `heatLevels.map`,
      `sidesOptions.map` and `sauces.map`, so a click passes one of the
      heat indices, or the id of a table entry. */
  predicate ActionAllowed(a: ModalAction) {
    && (a.ChooseHeat? ==> 0 <= a.index < |HeatLevels|)
    && (a.ToggleSide? ==> IsSideId(a.sideId))
    && (a.ToggleSauce? ==> IsSauceId(a.sauceId))
  }

  function Step(m: ModalState, a: ModalAction): (r: ModalState)
    requires ActionAllowed(a)
    ensures ValidModal(m) ==> ValidModal(r)
  {
    match a
    case Increase => m.(quantity := IncreaseQuantity(m.quantity))
    case Decrease => m.(quantity := DecreaseQuantity(m.quantity))
    case ChooseHeat(index) => m.(selectedHeat := index)
    case ToggleSide(id) => m.(selectedSides := Toggle(m.selectedSides, id))
    case ToggleSauce(id) => m.(selectedSauces := Toggle(m.selectedSauces, id))
    case EditInstructions(text) => m.(specialInstructions := text)
  }

  function RunModal(m: ModalState, actions: seq<ModalAction>): ModalState
    requires forall i :: 0 <= i < |actions| ==> ActionAllowed(actions[i])
    decreases |actions|
  {
    if |actions| == 0 then m else RunModal(Step(m, actions[0]), actions[1..])
  }

  lemma {:induction false} RunModalStaysValid(m: ModalState, actions: seq<ModalAction>)
    requires ValidModal(m)
    requires forall i :: 0 <= i < |actions| ==> ActionAllowed(actions[i])
    ensures ValidModal(RunModal(m, actions))
    decreases |actions|
  {
    if |actions| > 0 {
      RunModalStaysValid(Step(m, actions[0]), actions[1..]);
    }
  }

  /** From the opening state, whatever the user clicks, the quantity stays at
      least one, the heat index stays inside `heatLevels` and neither
      selection list holds an id twice. */
  lemma ReachableModalsValid(actions: seq<ModalAction>)
    requires forall i :: 0 <= i < |actions| ==> ActionAllowed(actions[i])
    ensures ValidModal(RunModal(InitialModal, actions))
  {
    var m0 := InitialModal;
    assert ValidModal(m0) by { InitialModalValid(); }
    RunModalStaysValid(m0, actions);
  }

  lemma InitialModalValid()
    ensures ValidModal(InitialModal)
  {
    assert NoDup(InitialModal.selectedSauces[1..]);
    assert KnownSauces(InitialModal.selectedSauces) by {
      assert Sauces[2].id == "medium";
    }
  }

  /** handleAddToCart(): builds the customization list, calls `addToCart`
      `quantity` times with the same arguments, then resets the dialog. The
      `onAddToCart` and `onClose` callbacks are presentation only. */
  method HandleAddToCart(cart: CartState, item: MenuItem, m: ModalState) returns (cart': CartState, m': ModalState)
    requires 0 <= m.selectedHeat < |HeatLevels|
    ensures m' == InitialModal
    ensures cart' == AddItemTimes(cart, item, Some(HeatSpice(m.selectedHeat)), Some(Customizations(m)),
                                  if m.quantity > 0 then m.quantity else 0)
    ensures m.quantity <= 0 ==> cart' == cart
    ensures m.quantity >= 1 && !HasId(cart.items, item.id) ==>
      cart' == CartState(cart.items + [CartItem(item, m.quantity, Some(HeatSpice(m.selectedHeat)), Some(Customizations(m)), item.price * m.quantity)], cart.isOpen)
  {
    var customizations := BuildCustomizations(m);
    var spice := HeatSpice(m.selectedHeat);
    cart' := AddRepeatedly(cart, item, Some(spice), Some(customizations), m.quantity);
    if m.quantity >= 1 && !HasId(cart.items, item.id) {
      RepeatedAddMerges(cart, item, Some(spice), Some(customizations), m.quantity);
    }
    m' := InitialModal;
  }

  /** The `for (let i = 0; i < quantity; i++) addToCart(...)` loop: a
      quantity below one adds nothing. */
  method AddRepeatedly(cart: CartState, item: MenuItem, spice: Option<SpiceLevel>, custom: Option<seq<string>>, quantity: int)
    returns (r: CartState)
    ensures r == AddItemTimes(cart, item, spice, custom, if quantity > 0 then quantity else 0)
  {
    ghost var n: nat := if quantity > 0 then quantity else 0;
    r := cart;
    var i := 0;
    while i < quantity
      invariant 0 <= i <= n
      invariant r == AddItemTimes(cart, item, spice, custom, i)
    {
      AddItemTimesStep(cart, item, spice, custom, i);
      r := AddItem(r, item, spice, custom);
      i := i + 1;
    }
    assert i == n;
  }

  /** The cart is charged the unit price times the quantity only: when the
      dialog's additions open a new line, the cart total grows by the
      displayed total minus the selected sides' prices. */
  lemma CartTotalOmitsSides(cart: CartState, item: MenuItem, m: ModalState)
    requires 0 <= m.selectedHeat < |HeatLevels| && m.quantity >= 1
    requires !HasId(cart.items, item.id)
    ensures var after := AddItemTimes(cart, item, Some(HeatSpice(m.selectedHeat)), Some(Customizations(m)), m.quantity);
      TotalPrice(after) == TotalPrice(cart) + DisplayedTotal(item, m) - SidesPrice(m.selectedSides) * m.quantity
  {
    var after := AddItemTimes(cart, item, Some(HeatSpice(m.selectedHeat)), Some(Customizations(m)), m.quantity);
    RepeatedAddTotals(cart, item, Some(HeatSpice(m.selectedHeat)), Some(Customizations(m)), m.quantity);
    DisplayedTotalSplit(item, m);
    ChargedIsDisplayedLessSides(TotalPrice(cart), TotalPrice(after), item.price * m.quantity,
      DisplayedTotal(item, m), SidesPrice(m.selectedSides) * m.quantity);
  }

  /** The displayed total is the unit price times the quantity plus the
      sides' prices times the quantity. */
  lemma DisplayedTotalSplit(item: MenuItem, m: ModalState)
    ensures DisplayedTotal(item, m) == item.price * m.quantity + SidesPrice(m.selectedSides) * m.quantity
  {
    Distribute(item.price, SidesPrice(m.selectedSides), m.quantity);
  }

  // Proof helpers. The two lemmas below say nothing about the dialog: they
  // keep one step of integer arithmetic out of the larger proofs above.

  lemma Distribute(a: int, b: int, q: int)
    ensures (a + b) * q == a * q + b * q
  {
  }

  lemma ChargedIsDisplayedLessSides(before: int, after: int, charged: int, displayed: int, sides: int)
    requires after == before + charged && displayed == charged + sides
    ensures after == before + displayed - sides
  {
  }
}

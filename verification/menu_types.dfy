/** The catalog and cart record shapes of `src/types/index.ts`: spice levels,
    menu categories, menu items and cart items. Prices and quantities are
    JavaScript numbers in the source; every catalog price is a whole number of
    rupees, so they are integers here. */
module MenuTypes {
  import opened Wrappers

  /** The six heat levels, mildest first. */
  datatype SpiceLevel = LemonAndHerb | Mild | Medium | Hot | ExtraHot | XXHot

  datatype MenuCategory =
    | Chicken | BurgersAndWraps | Platters | Starters | Sides | Desserts | Beverages

  /** The string literal the source uses for each spice level. */
  function SpiceName(level: SpiceLevel): string {
    match level
    case LemonAndHerb => "Lemon & Herb"
    case Mild => "Mild"
    case Medium => "Medium"
    case Hot => "Hot"
    case ExtraHot => "Extra Hot"
    case XXHot => "XX Hot"
  }

  /** Reads a string as a spice level: the string union type `SpiceLevel`
      admits exactly the six names and nothing else. */
  function ParseSpice(name: string): (r: Option<SpiceLevel>)
    ensures r.Some? ==> SpiceName(r.value) == name
    ensures forall level :: SpiceName(level) == name ==> r == Some(level)
  {
    if name == "Lemon & Herb" then Some(LemonAndHerb)
    else if name == "Mild" then Some(Mild)
    else if name == "Medium" then Some(Medium)
    else if name == "Hot" then Some(Hot)
    else if name == "Extra Hot" then Some(ExtraHot)
    else if name == "XX Hot" then Some(XXHot)
    else None
  }

  /** A catalog entry. `new` is spelled `isNew` because `new` is a Dafny
      keyword. */
  datatype MenuItem = MenuItem(
    id: string,
    name: string,
    description: string,
    price: int,
    category: MenuCategory,
    image: string,
    spiceLevel: Option<SpiceLevel>,
    isVegetarian: bool,
    isVegan: Option<bool>,
    allergens: Option<seq<string>>,
    calories: Option<int>,
    protein: Option<int>,
    customizable: bool,
    popular: Option<bool>,
    isNew: Option<bool>)

  /** A cart line: the menu item's fields copied in (`...item`), plus the
      selection and the derived total. */
  datatype CartItem = CartItem(
    item: MenuItem,
    quantity: int,
    selectedSpiceLevel: Option<SpiceLevel>,
    customizations: Option<seq<string>>,
    totalPrice: int)
}

/** The menu page's `filteredItems` (`src/app/menu/page.tsx`): a stable
    filter of the catalog by four conjunctive tests, with the `'All'`
    sentinel for category and spice level. The catalog (`menuItems`) is an
    arbitrary input sequence. */
module MenuFilter {
  import opened Wrappers
  import opened Seqs
  import opened Text
  import opened MenuTypes

  /** A dropdown value: the `'All'` sentinel or one value of the enumeration. */
  datatype Choice<T> = All | Only(value: T)

  /** The four pieces of filter state the page keeps. */
  datatype MenuQuery = MenuQuery(
    searchQuery: string,
    category: Choice<MenuCategory>,
    spiceLevel: Choice<SpiceLevel>,
    vegOnly: bool)

  /** The initial filter state, which the "Clear All Filters" button also
      restores. */
  const Cleared := MenuQuery("", All, All, false)

  /** The category buttons, in display order. */
  const CategoryChoices: seq<Choice<MenuCategory>> :=
    [All, Only(Chicken), Only(BurgersAndWraps), Only(Platters), Only(Starters), Only(Sides), Only(Desserts), Only(Beverages)]

  /** The spice buttons, in display order. */
  const SpiceChoices: seq<Choice<SpiceLevel>> :=
    [All, Only(LemonAndHerb), Only(Mild), Only(Medium), Only(Hot), Only(ExtraHot), Only(XXHot)]

  predicate MatchesSearch(item: MenuItem, searchQuery: string) {
    || Includes(Lower(item.name), Lower(searchQuery))
    || Includes(Lower(item.description), Lower(searchQuery))
  }

  predicate MatchesCategory(item: MenuItem, category: Choice<MenuCategory>) {
    match category
    case All => true
    case Only(c) => item.category == c
  }

  /** An item without a spice level is never equal to a chosen level. */
  predicate MatchesSpice(item: MenuItem, spiceLevel: Choice<SpiceLevel>) {
    match spiceLevel
    case All => true
    case Only(level) => item.spiceLevel == Some(level)
  }

  predicate MatchesVeg(item: MenuItem, vegOnly: bool) {
    !vegOnly || item.isVegetarian
  }

  predicate Matches(item: MenuItem, q: MenuQuery) {
    && MatchesSearch(item, q.searchQuery)
    && MatchesCategory(item, q.category)
    && MatchesSpice(item, q.spiceLevel)
    && MatchesVeg(item, q.vegOnly)
  }

  function MatchesQuery(q: MenuQuery): MenuItem -> bool {
    (item: MenuItem) => Matches(item, q)
  }

  /** `menuItems.filter(...)` for the current filter state. */
  function FilterMenu(catalog: seq<MenuItem>, q: MenuQuery): (r: seq<MenuItem>)
    ensures IsSubseq(r, catalog)
    ensures forall item :: item in r <==> item in catalog && Matches(item, q)
    ensures forall item :: multiset(r)[item] == if Matches(item, q) then multiset(catalog)[item] else 0
    ensures q.spiceLevel.Only? ==> forall item :: item in r ==> item.spiceLevel == Some(q.spiceLevel.value)
    ensures q.vegOnly ==> forall item :: item in r ==> item.isVegetarian
  {
    Filter(MatchesQuery(q), catalog)
  }

  /** An empty search text rules nothing out: `"".toLowerCase()` is a
      substring of every name. */
  lemma EmptySearchMatchesAll(catalog: seq<MenuItem>, q: MenuQuery)
    requires q.searchQuery == ""
    ensures forall item :: item in FilterMenu(catalog, q) <==>
      item in catalog && MatchesCategory(item, q.category) && MatchesSpice(item, q.spiceLevel) && MatchesVeg(item, q.vegOnly)
  {
  }

  /** With every filter cleared the page shows the whole catalog in order. */
  lemma ClearedShowsWholeCatalog(catalog: seq<MenuItem>)
    ensures FilterMenu(catalog, Cleared) == catalog
  {
    EmptySearchMatchesAll(catalog, Cleared);
    forall i | 0 <= i < |catalog|
      ensures Matches(catalog[i], Cleared)
    {
      assert catalog[i] in catalog;
    }
    FilterAllPass(MatchesQuery(Cleared), catalog);
  }

  /** Filtering the filtered list again with the same state changes nothing. */
  lemma FilterMenuIdempotent(catalog: seq<MenuItem>, q: MenuQuery)
    ensures FilterMenu(FilterMenu(catalog, q), q) == FilterMenu(catalog, q)
  {
    FilterIdempotent(MatchesQuery(q), catalog);
  }

  /** Ticking "vegetarian only" keeps a subsequence of what the same state
      without it shows. */
  lemma VegOnlyNarrows(catalog: seq<MenuItem>, q: MenuQuery)
    ensures IsSubseq(FilterMenu(catalog, q.(vegOnly := true)), FilterMenu(catalog, q.(vegOnly := false)))
  {
    FilterStronger(MatchesQuery(q.(vegOnly := true)), MatchesQuery(q.(vegOnly := false)), catalog);
  }

  /** A search text and its lower-cased form select the same items. */
  lemma SearchCaseInsensitive(catalog: seq<MenuItem>, q: MenuQuery)
    ensures FilterMenu(catalog, q.(searchQuery := Lower(q.searchQuery))) == FilterMenu(catalog, q)
  {
    LowerIdempotent(q.searchQuery);
    FilterExt(MatchesQuery(q.(searchQuery := Lower(q.searchQuery))), MatchesQuery(q), catalog);
  }

  /** The search test in terms of positions: the lowered query occurs at some
      index of the lowered name or of the lowered description. */
  lemma MatchesSearchIff(item: MenuItem, searchQuery: string)
    ensures MatchesSearch(item, searchQuery) <==>
      || (exists i :: OccursAt(Lower(item.name), Lower(searchQuery), i))
      || (exists i :: OccursAt(Lower(item.description), Lower(searchQuery), i))
  {
    IncludesIff(Lower(item.name), Lower(searchQuery));
    IncludesIff(Lower(item.description), Lower(searchQuery));
  }

  /** The button lists offer the sentinel first and then every value of the
      enumeration. */
  lemma ChoicesComplete()
    ensures CategoryChoices[0] == All && SpiceChoices[0] == All
    ensures forall c: MenuCategory :: Only(c) in CategoryChoices
    ensures forall l: SpiceLevel :: Only(l) in SpiceChoices
  {
    forall c: MenuCategory
      ensures Only(c) in CategoryChoices
    {
      match c
      case Chicken => assert CategoryChoices[1] == Only(c);
      case BurgersAndWraps => assert CategoryChoices[2] == Only(c);
      case Platters => assert CategoryChoices[3] == Only(c);
      case Starters => assert CategoryChoices[4] == Only(c);
      case Sides => assert CategoryChoices[5] == Only(c);
      case Desserts => assert CategoryChoices[6] == Only(c);
      case Beverages => assert CategoryChoices[7] == Only(c);
    }
    forall l: SpiceLevel
      ensures Only(l) in SpiceChoices
    {
      match l
      case LemonAndHerb => assert SpiceChoices[1] == Only(l);
      case Mild => assert SpiceChoices[2] == Only(l);
      case Medium => assert SpiceChoices[3] == Only(l);
      case Hot => assert SpiceChoices[4] == Only(l);
      case ExtraHot => assert SpiceChoices[5] == Only(l);
      case XXHot => assert SpiceChoices[6] == Only(l);
    }
  }
}

/** The rental filter sidebar: the filters it hands back to its parent, the
    price range it keeps while the slider moves, and which of its sections
    are open. */
module FilterSidebar {

  /** The filters the parent owns and the sidebar replaces. */
  datatype RentalFilters = RentalFilters(minPrice: int, maxPrice: int, minBeds: int, minBaths: int, petFriendly: bool)

  /** The filters "Reset All" hands back. */
  const DefaultFilters: RentalFilters := RentalFilters(0, 5000, 0, 0, false)

  /** The section flags, by name; a name with no entry reads as `undefined`. */
  type Sections = map<string, bool>

  /** The sections the sidebar draws, all open at first. */
  const InitialSections: Sections := map["price" := true, "beds" := true, "baths" := true, "pets" := true]

  /** `{ ...filters, minPrice, maxPrice }`: the price bounds from the range. */
  function WithPrice(f: RentalFilters, range: (int, int)): (g: RentalFilters)
    ensures g.minPrice == range.0 && g.maxPrice == range.1
    ensures g.minBeds == f.minBeds && g.minBaths == f.minBaths && g.petFriendly == f.petFriendly
  {
    f.(minPrice := range.0, maxPrice := range.1)
  }

  /** `{ ...filters, minBeds: value }`. */
  function WithBeds(f: RentalFilters, value: int): (g: RentalFilters)
    ensures g.minBeds == value
    ensures g.minPrice == f.minPrice && g.maxPrice == f.maxPrice && g.minBaths == f.minBaths
    ensures g.petFriendly == f.petFriendly
  {
    f.(minBeds := value)
  }

  /** `{ ...filters, minBaths: value }`. */
  function WithBaths(f: RentalFilters, value: int): (g: RentalFilters)
    ensures g.minBaths == value
    ensures g.minPrice == f.minPrice && g.maxPrice == f.maxPrice && g.minBeds == f.minBeds
    ensures g.petFriendly == f.petFriendly
  {
    f.(minBaths := value)
  }

  /** `{ ...filters, petFriendly: !filters.petFriendly }`. */
  function PetToggled(f: RentalFilters): (g: RentalFilters)
    ensures g.petFriendly == !f.petFriendly
    ensures g.minPrice == f.minPrice && g.maxPrice == f.maxPrice && g.minBeds == f.minBeds
    ensures g.minBaths == f.minBaths
  {
    f.(petFriendly := !f.petFriendly)
  }

  /** Toggling the pet filter twice gives the filters back. */
  lemma PetToggleTwice(f: RentalFilters)
    ensures PetToggled(PetToggled(f)) == f
  {
  }

  /** `{ ...expanded, [section]: !expanded[section] }`: the named flag flips,
      an `undefined` one becoming open, and every other entry stays. */
  function Toggled(expanded: Sections, section: string): (e: Sections)
    ensures e.Keys == expanded.Keys + {section}
    ensures e[section] == !(section in expanded && expanded[section])
    ensures forall s :: s in expanded && s != section ==> e[s] == expanded[s]
  {
    expanded[section := !(section in expanded && expanded[section])]
  }

  /** Toggling a drawn section twice gives the flags back. */
  lemma ToggleTwice(expanded: Sections, section: string)
    requires section in expanded
    ensures Toggled(Toggled(expanded, section), section) == expanded
  {
    var twice := Toggled(Toggled(expanded, section), section);
    assert twice.Keys == expanded.Keys;
    forall s | s in expanded ensures twice[s] == expanded[s] {
    }
  }

  /** Toggling a section no entry names opens it, and toggling it again
      closes it: the flags do not come back to what they were. */
  lemma ToggleUndefinedTwice(expanded: Sections, section: string)
    requires section !in expanded
    ensures Toggled(expanded, section)[section]
    ensures section in Toggled(Toggled(expanded, section), section)
    ensures !Toggled(Toggled(expanded, section), section)[section]
    ensures Toggled(Toggled(expanded, section), section) != expanded
  {
  }

  /** The sidebar: `filters` is what the parent holds, `priceRange` and
      `expanded` are the sidebar's own state. */
  class Sidebar {
    var filters: RentalFilters
    var priceRange: (int, int)
    var expanded: Sections

    /** The first render with the parent's `initial` filters: the range
        starts at their price bounds and every section is open. */
    constructor(initial: RentalFilters)
      ensures filters == initial
      ensures priceRange == (initial.minPrice, initial.maxPrice)
      ensures expanded == InitialSections
    {
      filters := initial;
      priceRange := (initial.minPrice, initial.maxPrice);
      expanded := InitialSections;
    }

    /** `handlePriceChange`: the slider moves the range only; the filters
        wait for "Apply". */
    method HandlePriceChange(value: seq<int>)
      requires |value| >= 2
      modifies this
      ensures priceRange == (value[0], value[1])
      ensures filters == old(filters) && expanded == old(expanded)
    {
      priceRange := (value[0], value[1]);
    }

    /** `applyPriceFilter`: the range becomes the price bounds. */
    method ApplyPriceFilter()
      modifies this
      ensures filters == WithPrice(old(filters), old(priceRange))
      ensures priceRange == old(priceRange) && expanded == old(expanded)
    {
      filters := WithPrice(filters, priceRange);
    }

    /** `handleBedChange`. */
    method HandleBedChange(value: int)
      modifies this
      ensures filters == WithBeds(old(filters), value)
      ensures priceRange == old(priceRange) && expanded == old(expanded)
    {
      filters := WithBeds(filters, value);
    }

    /** `handleBathChange`. */
    method HandleBathChange(value: int)
      modifies this
      ensures filters == WithBaths(old(filters), value)
      ensures priceRange == old(priceRange) && expanded == old(expanded)
    {
      filters := WithBaths(filters, value);
    }

    /** `togglePetFriendly`. */
    method TogglePetFriendly()
      modifies this
      ensures filters == PetToggled(old(filters))
      ensures priceRange == old(priceRange) && expanded == old(expanded)
    {
      filters := PetToggled(filters);
    }

    /** `resetFilters`: the default filters and the default price range; the
        sections stay as they are. */
    method ResetFilters()
      modifies this
      ensures filters == DefaultFilters && priceRange == (0, 5000)
      ensures filters.minPrice == priceRange.0 && filters.maxPrice == priceRange.1
      ensures expanded == old(expanded)
    {
      filters := RentalFilters(0, 5000, 0, 0, false);
      priceRange := (0, 5000);
    }

    /** `toggleSection`. */
    method ToggleSection(section: string)
      modifies this
      ensures expanded == Toggled(old(expanded), section)
      ensures filters == old(filters) && priceRange == old(priceRange)
    {
      expanded := expanded[section := !(section in expanded && expanded[section])];
    }
  }
}

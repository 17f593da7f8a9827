/** The page (src/app/page.tsx): it holds the fetched hotels, the list
    narrowed by type and price, the current filters and search, and wires
    the search bar, the filter panel and the result list together. */
module Page {
  import opened Inventory
  import opened Seqs
  import opened Text
  import Cards
  import Search
  import Sidebar

  // ---------------------------------------------------------------------
  // The type and price predicates of `handleFilterChange`

  /** `hotel.property_type?.toLowerCase() === type.toLowerCase()`: exact
      equality after lower-casing; a hotel without a type equals nothing. */
  predicate TypeEquals(h: Hotel, t: string)
  {
    h.propertyType.Some? && Lower(h.propertyType.value) == Lower(t)
  }

  /** `propertyTypes.some(...)`, scanned left to right. */
  function SomeTypeMatches(h: Hotel, types: seq<string>): (b: bool)
    ensures b <==> exists i :: 0 <= i < |types| && TypeEquals(h, types[i])
    decreases |types|
  {
    if types == [] then false
    else
      assert forall i :: 0 < i < |types| ==> types[i] == types[1..][i - 1];
      TypeEquals(h, types[0]) || SomeTypeMatches(h, types[1..])
  }

  /** `propertyTypeMatch`: no selection restricts nothing; otherwise the
      hotel's type must equal one of the selected types, ignoring case. */
  function TypeMatches(types: seq<string>, h: Hotel): (b: bool)
    ensures types == [] ==> b
    ensures types != [] ==> (b <==> exists i :: 0 <= i < |types| && TypeEquals(h, types[i]))
  {
    |types| == 0 || SomeTypeMatches(h, types)
  }

  /** A room whose rate lies in the range, both ends included. */
  predicate InRange(range: PriceRange, room: Room)
  {
    room.rate >= range.lo && room.rate <= range.hi
  }

  /** `rooms.some(...)`, scanned left to right. */
  function SomeRoomInRange(rooms: seq<Room>, range: PriceRange): (b: bool)
    ensures b <==> exists i :: 0 <= i < |rooms| && InRange(range, rooms[i])
    decreases |rooms|
  {
    if rooms == [] then false
    else
      assert forall i :: 0 < i < |rooms| ==> rooms[i] == rooms[1..][i - 1];
      InRange(range, rooms[0]) || SomeRoomInRange(rooms[1..], range)
  }

  /** `hasRoomInPriceRange`: some room is in range. A hotel without a room
      list, or with an empty one, never passes. */
  function PriceMatches(range: PriceRange, h: Hotel): (b: bool)
    ensures b <==> h.rooms.Some? && exists i :: 0 <= i < |h.rooms.value| && InRange(range, h.rooms.value[i])
    ensures h.rooms.None? || h.rooms.value == [] ==> !b
  {
    h.rooms.Some? && SomeRoomInRange(h.rooms.value, range)
  }

  /** The predicate `handleFilterChange` filters with. */
  predicate Keep(f: Filters, h: Hotel)
  {
    TypeMatches(f.propertyTypes, h) && PriceMatches(f.priceRange, h)
  }

  function KeepFor(f: Filters): Hotel -> bool
  {
    h => Keep(f, h)
  }

  /** The list `handleFilterChange` computes from `hotels`. */
  function ApplyFilters(hotels: seq<Hotel>, f: Filters): (r: seq<Hotel>)
    ensures forall h :: h in r <==> h in hotels && Keep(f, h)
    ensures forall h :: multiset(r)[h] == if Keep(f, h) then multiset(hotels)[h] else 0
    ensures IsSubsequence(r, hotels)
  {
    FilterIsSubsequence(hotels, KeepFor(f));
    FilterCounts(hotels, KeepFor(f));
    Filter(hotels, KeepFor(f))
  }

  /** Type, price and location narrowing as one conjunction. */
  function ShownFor(f: Filters, sp: Option<SearchParams>): Hotel -> bool
  {
    h => Keep(f, h) && Cards.LocationAllows(sp, h)
  }

  /** Narrowing by type and price and then by location, as the page and the
      result list do it between them, is one filter of the fetched hotels
      by the conjunction of the three predicates. */
  lemma {:induction false} DisplayedIsConjunction(hotels: seq<Hotel>, f: Filters, sp: Option<SearchParams>)
    ensures Cards.LocationFilter(ApplyFilters(hotels, f), sp) == Filter(hotels, ShownFor(f, sp))
  {
    if sp.Some? && sp.value.location != "" {
      var q := sp.value.location;
      FilterFuse(hotels, KeepFor(f), h => Cards.InLocation(q, h), ShownFor(f, sp));
    } else {
      var always: Hotel -> bool := h => true;
      FilterKeepsAll(ApplyFilters(hotels, f), always);
      FilterFuse(hotels, KeepFor(f), always, ShownFor(f, sp));
    }
  }

  // ---------------------------------------------------------------------
  // The page's state

  class Home {
    /** The fetched inventory. */
    var hotels: seq<Hotel>
    /** The list handed to the result list. */
    var filteredHotels: seq<Hotel>
    var loading: bool
    var searchParams: SearchParams
    var filters: Filters

    /** The list handed on is either the whole inventory (before any filter
        change, or after a fetch that completes later) or the inventory
        narrowed by the current filters. */
    ghost predicate Valid()
      reads this
    {
      filteredHotels == hotels || filteredHotels == ApplyFilters(hotels, filters)
    }

    /** The initial state: nothing fetched yet, loading, the default search
        for `today` and the default filters. */
    constructor (today: Day)
      ensures Valid()
      ensures hotels == [] && filteredHotels == [] && loading
      ensures searchParams == DefaultSearch(today) && filters == DefaultFilters
    {
      hotels, filteredHotels := [], [];
      loading := true;
      searchParams := DefaultSearch(today);
      filters := DefaultFilters;
    }

    /** The end of the one fetch: `Some(results)` stores the results as both
        lists; `None` (request, parse or missing `results` failure) keeps
        both lists. Loading ends either way. */
    method FetchCompleted(results: Option<seq<Hotel>>)
      modifies this`hotels, this`filteredHotels, this`loading
      ensures !loading
      ensures results.Some? ==> hotels == results.value && filteredHotels == results.value
      ensures results.None? ==> hotels == old(hotels) && filteredHotels == old(filteredHotels)
      ensures old(Valid()) ==> Valid()
    {
      if results.Some? {
        hotels := results.value;
        filteredHotels := results.value;
      }
      loading := false;
    }

    /** `handleSearch`: the emitted search replaces the current one. */
    method HandleSearch(params: SearchParams)
      modifies this`searchParams
      ensures searchParams == params
    {
      searchParams := params;
    }

    /** `handleLocationSelect`: the same replacement, from a suggestion. */
    method HandleLocationSelect(params: SearchParams)
      modifies this`searchParams
      ensures searchParams == params
    {
      searchParams := params;
    }

    /** `handleFilterChange`: store the filters and narrow the whole
        inventory by them, whatever was filtered before. */
    method HandleFilterChange(newFilters: Filters)
      modifies this`filters, this`filteredHotels
      ensures filters == newFilters
      ensures filteredHotels == ApplyFilters(hotels, newFilters)
      ensures Valid()
      ensures Displayed() == Filter(hotels, ShownFor(newFilters, Some(searchParams)))
    {
      filters := newFilters;
      filteredHotels := ApplyFilters(hotels, newFilters);
    }

    /** The hotels the result list shows. */
    function Displayed(): (r: seq<Hotel>)
      reads this
      ensures filteredHotels == ApplyFilters(hotels, filters) ==>
        r == Filter(hotels, ShownFor(filters, Some(searchParams)))
      ensures filteredHotels == hotels ==> r == Cards.LocationFilter(hotels, Some(searchParams))
    {
      DisplayedIsConjunction(hotels, filters, Some(searchParams));
      Cards.LocationFilter(filteredHotels, Some(searchParams))
    }

    /** What the page renders below the filters: nothing but the loading
        line while loading, then the result list for the current state. */
    method View() returns (view: Option<Cards.View>)
      ensures view.None? <==> loading
      ensures view.Some? ==> (view.value.NoResults? <==> Displayed() == [])
      ensures view.Some? && view.value.NoResults? ==>
        view.value.suggestions <= Cards.StateSet(filteredHotels) &&
        |view.value.suggestions| ==
          if |Cards.StateSet(filteredHotels)| <= 5 then |Cards.StateSet(filteredHotels)| else 5
      ensures view.Some? && view.value.Results? ==>
        |view.value.cards| == |Displayed()| &&
        forall i :: 0 <= i < |view.value.cards| ==>
          view.value.cards[i] == Cards.PriceCard(Displayed()[i], Some(searchParams))
    {
      if loading {
        view := None;
      } else {
        var v := Cards.Render(filteredHotels, Some(searchParams));
        view := Some(v);
      }
    }
  }

  // ---------------------------------------------------------------------
  // The callbacks the page hands to its children

  /** The search button: the search bar's record becomes the page's search. */
  method SubmitSearch(box: Search.SearchBox, home: Home)
    modifies home`searchParams
    ensures home.searchParams ==
      SearchParams(box.location, box.rooms, box.adults, box.children, box.startDate, box.endDate)
  {
    var emitted := box.HandleSearch();
    home.HandleSearch(emitted);
  }

  /** A property-type check box: the toggled types and the panel's range
      narrow the whole inventory. */
  method ToggleTypeFilter(panel: Sidebar.FilterPanel, home: Home, t: string)
    modifies panel`propertyTypes, home`filters, home`filteredHotels
    ensures panel.propertyTypes == Sidebar.Toggle(old(panel.propertyTypes), t)
    ensures home.filters == Filters(panel.propertyTypes, panel.values)
    ensures home.filteredHotels == ApplyFilters(home.hotels, home.filters)
  {
    var emitted := panel.HandlePropertyTypeChange(t);
    home.HandleFilterChange(emitted);
  }

  /** The budget slider: the new range and the panel's types narrow the
      whole inventory. */
  method ChangePriceFilter(panel: Sidebar.FilterPanel, home: Home, range: PriceRange)
    modifies panel`values, home`filters, home`filteredHotels
    ensures panel.values == range
    ensures home.filters == Filters(panel.propertyTypes, range)
    ensures home.filteredHotels == ApplyFilters(home.hotels, home.filters)
  {
    var emitted := panel.HandlePriceChange(range);
    home.HandleFilterChange(emitted);
  }

  /** The "Find Affordable hotels" button: the panel's state as it is. */
  method ApplyFilterButton(panel: Sidebar.FilterPanel, home: Home)
    modifies home`filters, home`filteredHotels
    ensures home.filters == Filters(panel.propertyTypes, panel.values)
    ensures home.filteredHotels == ApplyFilters(home.hotels, home.filters)
  {
    var emitted := panel.Apply();
    home.HandleFilterChange(emitted);
  }

  /** A suggested location: the current search with only its location
      replaced; the lists and the filters stay as they are. */
  method PickSuggestion(home: Home, location: string)
    modifies home`searchParams
    ensures home.searchParams == old(home.searchParams).(location := location)
  {
    var emitted := Cards.SelectLocation(Some(home.searchParams), location);
    home.HandleLocationSelect(emitted.value);
  }
}

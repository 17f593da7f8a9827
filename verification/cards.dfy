/** The result list (src/components/Cards.tsx): location narrowing, the
    cheapest room and its total, the commission badge rule and the
    alternative locations offered when nothing matches. */
module Cards {
  import opened Inventory
  import opened Text
  import opened Seqs

  // ---------------------------------------------------------------------
  // Location narrowing

  /** `hotel.location_state?.toLowerCase() || ''`: a missing state reads as "". */
  function StateKey(h: Hotel): string
  {
    if h.state.Some? then Lower(h.state.value) else ""
  }

  /** A non-empty query `q` keeps `h` when the lower-cased state contains
      the lower-cased query. */
  predicate InLocation(q: string, h: Hotel)
  {
    Contains(StateKey(h), Lower(q))
  }

  /** Whether the location narrowing for `sp` keeps `h`: always when there
      is no search or its location is empty. */
  predicate LocationAllows(sp: Option<SearchParams>, h: Hotel)
  {
    sp.None? || sp.value.location == "" || InLocation(sp.value.location, h)
  }

  /** The list the cards are drawn from. */
  function LocationFilter(hotels: seq<Hotel>, sp: Option<SearchParams>): (r: seq<Hotel>)
    ensures sp.None? || sp.value.location == "" ==> r == hotels
    ensures forall h :: h in r <==> h in hotels && LocationAllows(sp, h)
    ensures forall h :: multiset(r)[h] == if LocationAllows(sp, h) then multiset(hotels)[h] else 0
    ensures IsSubsequence(r, hotels)
  {
    if sp.Some? && sp.value.location != "" then
      var q := sp.value.location;
      FilterIsSubsequence(hotels, h => InLocation(q, h));
      FilterCounts(hotels, h => InLocation(q, h));
      Filter(hotels, h => InLocation(q, h))
    else
      SubsequenceOfItself(hotels);
      hotels
  }

  /** With a non-empty query, a hotel is kept exactly when its lower-cased
      state has the lower-cased query as a substring at some position. */
  lemma LocationFilterKeeps(hotels: seq<Hotel>, sp: Option<SearchParams>, h: Hotel)
    requires sp.Some? && sp.value.location != ""
    ensures h in LocationFilter(hotels, sp) <==>
            h in hotels && exists i :: OccursAt(StateKey(h), Lower(sp.value.location), i)
  {
    ContainsIff(StateKey(h), Lower(sp.value.location));
  }

  // ---------------------------------------------------------------------
  // Nights, cheapest room and total

  /** `calculateNights`: the day difference, except that a difference of 0
      counts as one night; any other difference, negative ones included,
      is kept. */
  function CalculateNights(startDate: Day, endDate: Day): (n: int)
    ensures n != 0
    ensures endDate == startDate ==> n == 1
    ensures endDate != startDate ==> n == endDate - startDate
  {
    var d := endDate - startDate;
    if d == 0 then 1 else d
  }

  /** Room `k` is a cheapest of the first `n` rooms, and every room before
      it is strictly dearer. */
  predicate CheapestAmong(rooms: seq<Room>, n: nat, k: nat)
  {
    k < n <= |rooms| &&
    (forall j :: 0 <= j < n ==> rooms[k].rate <= rooms[j].rate) &&
    (forall j :: 0 <= j < k ==> rooms[k].rate < rooms[j].rate)
  }

  /** The `reduce` of the rooms from index `i` on, with accumulator `min`:
      a room replaces the accumulator only when strictly cheaper. */
  function ReduceCheapest(rooms: seq<Room>, i: nat, min: nat): (k: nat)
    requires CheapestAmong(rooms, i, min)
    ensures CheapestAmong(rooms, |rooms|, k)
    decreases |rooms| - i
  {
    if i == |rooms| then min
    else ReduceCheapest(rooms, i + 1, if rooms[i].rate < rooms[min].rate then i else min)
  }

  /** The index of the room the card prices, or None when the hotel has no
      room list or an empty one ("No room data"). */
  function CheapestRoom(rooms: Option<seq<Room>>): (r: Option<nat>)
    ensures r.None? <==> rooms.None? || rooms.value == []
    ensures r.Some? ==> CheapestAmong(rooms.value, |rooms.value|, r.value)
  {
    if rooms.None? || rooms.value == [] then None
    else Some(ReduceCheapest(rooms.value, 1, 0))
  }

  /** Among equal cheapest rates the first room wins. */
  lemma CheapestTieGoesFirst()
    ensures CheapestRoom(Some([Room(5000, "A"), Room(3000, "B"), Room(3000, "C")])) == Some(1)
  {
    var rooms := [Room(5000, "A"), Room(3000, "B"), Room(3000, "C")];
    assert CheapestAmong(rooms, 3, 1);
  }

  /** `searchParams?.rooms || 1`: 1 without a search or with a room count of 0. */
  function RoomCount(sp: Option<SearchParams>): (n: int)
    ensures n != 0
    ensures sp.Some? && sp.value.rooms != 0 ==> n == sp.value.rooms
    ensures sp.None? || sp.value.rooms == 0 ==> n == 1
  {
    if sp.Some? && sp.value.rooms != 0 then sp.value.rooms else 1
  }

  /** The nights shown on a card: those of the searched dates, one without
      a search. */
  function Nights(sp: Option<SearchParams>): (n: int)
    ensures n != 0
    ensures sp.Some? ==> n == CalculateNights(sp.value.startDate, sp.value.endDate)
    ensures sp.None? ==> n == 1
  {
    if sp.Some? then CalculateNights(sp.value.startDate, sp.value.endDate) else 1
  }

  /** `totalPrice`: the cheapest rate times the room count times the nights,
      or 0 without rooms. */
  function TotalPrice(h: Hotel, sp: Option<SearchParams>): (t: int)
    ensures h.rooms.None? || h.rooms.value == [] ==> t == 0
    ensures h.rooms.Some? && h.rooms.value != [] ==>
      exists j :: 0 <= j < |h.rooms.value| && CheapestAmong(h.rooms.value, |h.rooms.value|, j) &&
        t == h.rooms.value[j].rate * (RoomCount(sp) * Nights(sp))
  {
    match CheapestRoom(h.rooms)
    case None => 0
    case Some(k) =>
      var rate := h.rooms.value[k].rate;
      MulAssociates(rate, RoomCount(sp), Nights(sp));
      assert CheapestAmong(h.rooms.value, |h.rooms.value|, k);
      rate * RoomCount(sp) * Nights(sp)
  }

  lemma MulAssociates(a: int, b: int, c: int)
    ensures a * b * c == a * (b * c)
  {
  }

  lemma MulMonotone(a: int, b: int, c: int)
    requires a <= b && c > 0
    ensures a * c <= b * c
  {
  }

  /** Without rooms the total is 0; otherwise it is the total of one of
      the hotel's rooms, and with a positive stay multiplier it is the
      smallest total any of its rooms would cost. A reversed date range
      gives a negative multiplier, which the code passes through. */
  lemma {:induction false} TotalIsCheapestTotal(h: Hotel, sp: Option<SearchParams>)
    ensures h.rooms.None? || h.rooms.value == [] ==> TotalPrice(h, sp) == 0
    ensures h.rooms.Some? && RoomCount(sp) * Nights(sp) > 0 ==>
      forall j :: 0 <= j < |h.rooms.value| ==>
        TotalPrice(h, sp) <= h.rooms.value[j].rate * (RoomCount(sp) * Nights(sp))
    ensures h.rooms.Some? && h.rooms.value != [] ==>
      exists j :: 0 <= j < |h.rooms.value| &&
        TotalPrice(h, sp) == h.rooms.value[j].rate * (RoomCount(sp) * Nights(sp))
  {
    var c := RoomCount(sp) * Nights(sp);
    match CheapestRoom(h.rooms)
    case None =>
    case Some(k) =>
      var rooms := h.rooms.value;
      assert TotalPrice(h, sp) == rooms[k].rate * c;
      if c > 0 {
        forall j | 0 <= j < |rooms|
          ensures TotalPrice(h, sp) <= rooms[j].rate * c
        {
          MulMonotone(rooms[k].rate, rooms[j].rate, c);
        }
      }
  }

  /** A same-day stay is priced as one night: rate 10000 for two rooms is 20000. */
  lemma SameDayCountsOneNight(h: Hotel, today: Day)
    requires h.rooms == Some([Room(10000, "Standard")])
    ensures TotalPrice(h, Some(DefaultSearch(today).(rooms := 2))) == 20000
  {
    assert CheapestRoom(h.rooms) == Some(0);
  }

  // ---------------------------------------------------------------------
  // Commission badge

  /** The badge is shown unless the commission, with every space removed,
      is exactly "0%"; a hotel without a commission shows it. */
  function ShowsCommission(commission: Option<string>): (shown: bool)
    ensures shown <==> commission.None? || RemoveSpaces(commission.value) != "0%"
  {
    if commission.None? then true
    else
      RemoveSpacesTrim(commission.value);
      RemoveSpaces(Trim(commission.value)) != "0%"
  }

  lemma ZeroWithSpacesHidesBadge()
    ensures !ShowsCommission(Some(" 0 %"))
  {
    var s := " 0 %";
    assert Filter(s[3..], NotSpace) == "%" by {
      assert s[3..][1..] == [];
    }
    assert Filter(s[2..], NotSpace) == "%" by {
      assert s[2..][1..] == s[3..];
    }
    assert Filter(s[1..], NotSpace) == "0%" by {
      assert s[1..][1..] == s[2..];
    }
    assert RemoveSpaces(s) == "0%";
  }

  lemma FivePercentShowsBadge()
    ensures ShowsCommission(Some("5%"))
  {
    FilterKeepsAll("5%", NotSpace);
  }

  // ---------------------------------------------------------------------
  // Alternative locations

  /** A hotel whose state is present and non-empty (`if (hotel.location_state)`). */
  predicate HasState(h: Hotel, s: string)
  {
    h.state == Some(s) && s != ""
  }

  /** One step of the `forEach`: add the hotel's state to the
      insertion-ordered set unless it is absent, empty or already there. */
  function AddState(seen: seq<string>, h: Hotel): seq<string>
  {
    if h.state.Some? && h.state.value != "" && h.state.value !in seen then seen + [h.state.value]
    else seen
  }

  /** The `Set` of states after visiting `hotels`, in insertion order. */
  function StateSet(hotels: seq<Hotel>): seq<string>
    decreases |hotels|
  {
    if hotels == [] then []
    else AddState(StateSet(hotels[..|hotels| - 1]), hotels[|hotels| - 1])
  }

  /** The set holds each non-empty state of the hotels exactly once. */
  lemma {:induction false} StateSetMembers(hotels: seq<Hotel>)
    ensures NoDuplicates(StateSet(hotels))
    ensures forall s :: s in StateSet(hotels) <==> exists i :: 0 <= i < |hotels| && HasState(hotels[i], s)
    decreases |hotels|
  {
    if hotels != [] {
      var init := hotels[..|hotels| - 1];
      StateSetMembers(init);
      forall s
        ensures s in StateSet(hotels) <==> exists i :: 0 <= i < |hotels| && HasState(hotels[i], s)
      {
        if s in StateSet(init) {
          var i :| 0 <= i < |init| && HasState(init[i], s);
          assert HasState(hotels[i], s);
        }
        if exists i :: 0 <= i < |hotels| && HasState(hotels[i], s) {
          var i :| 0 <= i < |hotels| && HasState(hotels[i], s);
          if i < |init| {
            assert HasState(init[i], s);
          }
        }
      }
    }
  }

  /** First-seen order: the states of a prefix of the hotels come first. */
  lemma {:induction false} StateSetPrefix(hotels: seq<Hotel>, m: nat)
    requires m <= |hotels|
    ensures StateSet(hotels[..m]) <= StateSet(hotels)
    decreases |hotels| - m
  {
    if m < |hotels| {
      StateSetPrefix(hotels, m + 1);
      assert hotels[..m + 1][..m] == hotels[..m];
    } else {
      assert hotels[..m] == hotels;
    }
  }

  /** `getUniqueLocations`: the first five states of the set. */
  method GetUniqueLocations(hotels: seq<Hotel>) returns (locations: seq<string>)
    ensures locations <= StateSet(hotels)
    ensures |locations| == if |StateSet(hotels)| <= 5 then |StateSet(hotels)| else 5
    ensures NoDuplicates(locations)
    ensures forall s :: s in locations ==> exists i :: 0 <= i < |hotels| && HasState(hotels[i], s)
    ensures |locations| < 5 ==>
      forall i, s :: 0 <= i < |hotels| && HasState(hotels[i], s) ==> s in locations
  {
    var seen: seq<string> := [];
    var i := 0;
    while i < |hotels|
      invariant 0 <= i <= |hotels|
      invariant seen == StateSet(hotels[..i])
    {
      assert hotels[..i + 1][..i] == hotels[..i];
      seen := AddState(seen, hotels[i]);
      i := i + 1;
    }
    assert hotels[..i] == hotels;
    StateSetMembers(hotels);
    locations := if |seen| <= 5 then seen else seen[..5];
    assert forall s :: s in locations ==> s in seen;
  }

  /** Seven otherwise blank hotels in states A, B, A, C, D, E, F. */
  function ExampleHotels(): seq<Hotel>
  {
    seq(7, i requires 0 <= i < 7 =>
      Hotel(i, "", "", [], "", Some(["A", "B", "A", "C", "D", "E", "F"][i]), 0, false, None, None, None))
  }

  /** Hotels in states A, B, A, C, D, E, F (in that order) give the set
      A, B, C, D, E, F, so `GetUniqueLocations` suggests A, B, C, D, E: the
      repeated A is dropped and F is cut off by the limit of five. */
  lemma SuggestionsExample()
    ensures StateSet(ExampleHotels()) == ["A", "B", "C", "D", "E", "F"]
    ensures StateSet(ExampleHotels())[..5] == ["A", "B", "C", "D", "E"]
  {
    var a, b, c, d, e, f := "A", "B", "C", "D", "E", "F";
    var hs := ExampleHotels();
    assert hs[..0] == [];
    assert StateSet(hs[..1]) == [a] by { assert hs[..1][..0] == hs[..0]; }
    assert StateSet(hs[..2]) == [a, b] by { assert hs[..2][..1] == hs[..1]; }
    assert StateSet(hs[..3]) == [a, b] by { assert hs[..3][..2] == hs[..2]; }
    assert StateSet(hs[..4]) == [a, b, c] by { assert hs[..4][..3] == hs[..3]; }
    assert StateSet(hs[..5]) == [a, b, c, d] by { assert hs[..5][..4] == hs[..4]; }
    assert StateSet(hs[..6]) == [a, b, c, d, e] by { assert hs[..6][..5] == hs[..5]; }
    assert StateSet(hs) == [a, b, c, d, e, f] by { assert hs[..6] == hs[..|hs| - 1]; }
  }

  // ---------------------------------------------------------------------
  // Location suggestion click and the rendered view

  /** A suggestion re-emits the current search with only `location`
      replaced; without a search nothing is emitted. */
  function SelectLocation(sp: Option<SearchParams>, location: string): (emitted: Option<SearchParams>)
    ensures emitted.Some? <==> sp.Some?
    ensures emitted.Some? ==>
      emitted.value.location == location &&
      emitted.value.rooms == sp.value.rooms && emitted.value.adults == sp.value.adults &&
      emitted.value.children == sp.value.children &&
      emitted.value.startDate == sp.value.startDate && emitted.value.endDate == sp.value.endDate
  {
    if sp.Some? then Some(sp.value.(location := location)) else None
  }

  /** What one card shows. `cheapest == None` is the "No room data" branch. */
  datatype Card = Card(
    hotel: Hotel,
    nights: int,
    roomCount: int,
    cheapest: Option<nat>,
    total: int,
    showCommission: bool)

  /** Either the alternative-location panel or the list of cards. */
  datatype View = NoResults(suggestions: seq<string>) | Results(cards: seq<Card>)

  /** One card: the nights and room multiplier of the search, the cheapest
      room (none for "No room data"), its total and the badge decision. */
  function PriceCard(h: Hotel, sp: Option<SearchParams>): (c: Card)
    ensures c.hotel == h
    ensures sp.Some? ==> c.nights == CalculateNights(sp.value.startDate, sp.value.endDate)
    ensures sp.None? ==> c.nights == 1 && c.roomCount == 1
    ensures sp.Some? && sp.value.rooms != 0 ==> c.roomCount == sp.value.rooms
    ensures sp.Some? && sp.value.rooms == 0 ==> c.roomCount == 1
    ensures c.cheapest.None? <==> h.rooms.None? || h.rooms.value == []
    ensures c.cheapest.Some? ==> CheapestAmong(h.rooms.value, |h.rooms.value|, c.cheapest.value)
    ensures c.cheapest.None? ==> c.total == 0
    ensures c.cheapest.Some? ==> c.total == h.rooms.value[c.cheapest.value].rate * (c.roomCount * c.nights)
    ensures c.showCommission <==> h.commission.None? || RemoveSpaces(h.commission.value) != "0%"
  {
    Card(h, Nights(sp), RoomCount(sp), CheapestRoom(h.rooms), TotalPrice(h, sp), ShowsCommission(h.commission))
  }

  /** The component: the narrowed list as priced cards, or, when it is
      empty, suggestions drawn from the `hotels` it was given. */
  method Render(hotels: seq<Hotel>, sp: Option<SearchParams>) returns (view: View)
    ensures view.NoResults? <==> LocationFilter(hotels, sp) == []
    ensures view.NoResults? ==>
      view.suggestions <= StateSet(hotels) &&
      |view.suggestions| == if |StateSet(hotels)| <= 5 then |StateSet(hotels)| else 5
    ensures view.Results? ==>
      |view.cards| == |LocationFilter(hotels, sp)| &&
      forall i :: 0 <= i < |view.cards| ==> view.cards[i] == PriceCard(LocationFilter(hotels, sp)[i], sp)
  {
    var shown := LocationFilter(hotels, sp);
    if |shown| == 0 {
      var suggestions := GetUniqueLocations(hotels);
      view := NoResults(suggestions);
    } else {
      view := Results(seq(|shown|, i requires 0 <= i < |shown| => PriceCard(shown[i], sp)));
    }
  }
}

/** The search bar (src/components/Search.tsx): a location field, a date
    range, a guests-and-rooms dropdown with steppers, and the search
    button that emits the whole search record. */
module Search {
  import opened Inventory

  /** A "-" stepper: `Math.max(floor, n - 1)`. */
  function StepDown(n: int, floor: int): (r: int)
    ensures r >= floor && r >= n - 1
    ensures r == floor || r == n - 1
  {
    if n - 1 >= floor then n - 1 else floor
  }

  function DigitChar(d: int): (c: char)
    requires 0 <= d < 10
    ensures '0' <= c <= '9'
  {
    (d + '0' as int) as char
  }

  /** A non-negative number in decimal, as a template literal prints it. */
  function NatToString(n: nat): (s: string)
    ensures |s| > 0
    ensures forall i :: 0 <= i < |s| ==> '0' <= s[i] <= '9'
    ensures |s| > 1 ==> s[0] != '0'
    decreases n
  {
    if n < 10 then [DigitChar(n)] else NatToString(n / 10) + [DigitChar(n % 10)]
  }

  /** Reading a string of decimal digits back as a number. */
  function ParseDigits(s: string): nat
    requires forall i :: 0 <= i < |s| ==> '0' <= s[i] <= '9'
    decreases |s|
  {
    if s == [] then 0
    else ParseDigits(s[..|s| - 1]) * 10 + (s[|s| - 1] as int - '0' as int)
  }

  /** The printed number reads back as itself, so distinct counts print
      differently. */
  lemma {:induction false} NatToStringRoundTrip(n: nat)
    ensures ParseDigits(NatToString(n)) == n
    decreases n
  {
    if n >= 10 {
      NatToStringRoundTrip(n / 10);
      var s := NatToString(n);
      assert s[..|s| - 1] == NatToString(n / 10);
    }
  }

  /** An integer in decimal, with a leading '-' when negative. */
  function IntToString(n: int): string
  {
    if n < 0 then "-" + NatToString(-n) else NatToString(n)
  }

  /** The text after an optional leading '-'. */
  function Unsigned(s: string): string
  {
    if |s| > 0 && s[0] == '-' then s[1..] else s
  }

  /** Decimal digits, optionally after a '-'. */
  predicate IsIntText(s: string)
  {
    forall i :: 0 <= i < |Unsigned(s)| ==> '0' <= Unsigned(s)[i] <= '9'
  }

  /** Printed as a template literal prints a number: at least one digit
      and no leading zero. */
  predicate Canonical(s: string)
  {
    |Unsigned(s)| > 0 && (|Unsigned(s)| > 1 ==> Unsigned(s)[0] != '0')
  }

  function ParseInt(s: string): int
    requires IsIntText(s)
  {
    var magnitude: int := ParseDigits(Unsigned(s));
    if |s| > 0 && s[0] == '-' then -magnitude else magnitude
  }

  lemma IntToStringRoundTrip(n: int)
    ensures IsIntText(IntToString(n)) && ParseInt(IntToString(n)) == n
    ensures Unsigned(IntToString(n)) == NatToString(if n < 0 then -n else n)
  {
    if n < 0 {
      NatToStringRoundTrip(-n);
      assert IntToString(n)[1..] == NatToString(-n);
    } else {
      NatToStringRoundTrip(n);
    }
  }

  class SearchBox {
    var location: string
    var startDate: Day
    var endDate: Day
    var dropdownOpen: bool
    var adults: int
    var children: int
    var rooms: int

    /** The stepper bounds: at least one adult, no negative children, at
        least one room. */
    ghost predicate Valid()
      reads this
    {
      adults >= 1 && children >= 0 && rooms >= 1
    }

    /** The initial state: nothing typed, today to today, dropdown closed,
        one adult, no children, one room. */
    constructor (today: Day)
      ensures Valid()
      ensures location == "" && startDate == today && endDate == today
      ensures !dropdownOpen && adults == 1 && children == 0 && rooms == 1
    {
      location := "";
      startDate, endDate := today, today;
      dropdownOpen := false;
      adults, children, rooms := 1, 0, 1;
    }

    /** The location field's `onChange`. */
    method SetLocation(text: string)
      modifies this
      ensures location == text
      ensures startDate == old(startDate) && endDate == old(endDate) && dropdownOpen == old(dropdownOpen)
      ensures adults == old(adults) && children == old(children) && rooms == old(rooms)
    {
      location := text;
    }

    /** The date picker's `onChange`: the selected range replaces the old one. */
    method SetDateRange(start: Day, end: Day)
      modifies this
      ensures startDate == start && endDate == end
      ensures location == old(location) && dropdownOpen == old(dropdownOpen)
      ensures adults == old(adults) && children == old(children) && rooms == old(rooms)
    {
      startDate, endDate := start, end;
    }

    /** `handleDropdownToggle`. */
    method ToggleDropdown()
      modifies this`dropdownOpen
      ensures dropdownOpen == !old(dropdownOpen)
    {
      dropdownOpen := !dropdownOpen;
    }

    /** `handleDone`. */
    method Done()
      modifies this`dropdownOpen
      ensures !dropdownOpen
    {
      dropdownOpen := false;
    }

    method DecrementAdults()
      modifies this`adults
      ensures adults == StepDown(old(adults), 1)
      ensures adults >= 1
      ensures old(Valid()) ==> Valid()
    {
      adults := StepDown(adults, 1);
    }

    method IncrementAdults()
      modifies this`adults
      ensures adults == old(adults) + 1
      ensures old(Valid()) ==> Valid()
    {
      adults := adults + 1;
    }

    method DecrementChildren()
      modifies this`children
      ensures children == StepDown(old(children), 0)
      ensures children >= 0
      ensures old(Valid()) ==> Valid()
    {
      children := StepDown(children, 0);
    }

    method IncrementChildren()
      modifies this`children
      ensures children == old(children) + 1
      ensures old(Valid()) ==> Valid()
    {
      children := children + 1;
    }

    method DecrementRooms()
      modifies this`rooms
      ensures rooms == StepDown(old(rooms), 1)
      ensures rooms >= 1
      ensures old(Valid()) ==> Valid()
    {
      rooms := StepDown(rooms, 1);
    }

    method IncrementRooms()
      modifies this`rooms
      ensures rooms == old(rooms) + 1
      ensures old(Valid()) ==> Valid()
    {
      rooms := rooms + 1;
    }

    /** `handleSearch`: the record emitted to the page. */
    method HandleSearch() returns (emitted: SearchParams)
      ensures emitted.location == location && emitted.rooms == rooms
      ensures emitted.adults == adults && emitted.children == children
      ensures emitted.startDate == startDate && emitted.endDate == endDate
    {
      emitted := SearchParams(location, rooms, adults, children, startDate, endDate);
    }

    /** `guestSummary`: "<rooms> Room(s) - <guests> Guest(s)", where the
        guest count is adults plus children. */
    function GuestSummary(): (s: string)
      reads this
      ensures exists r, g ::
        s == r + " Room(s) - " + g + " Guest(s)" &&
        IsIntText(r) && ParseInt(r) == rooms && Canonical(r) &&
        IsIntText(g) && ParseInt(g) == adults + children && Canonical(g)
    {
      IntToStringRoundTrip(rooms);
      IntToStringRoundTrip(adults + children);
      IntToString(rooms) + " Room(s) - " + IntToString(adults + children) + " Guest(s)"
    }
  }
}

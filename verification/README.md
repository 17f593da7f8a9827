# Hotel search: filtering and pricing pipeline

A verified model of the client-side pipeline of a hotel-search page. The
page fetches a list of hotels once. It narrows the list by property type
and price when the filter panel changes. The result list then narrows it
by the searched location and prices each hotel by its cheapest room for the
searched stay. When nothing matches, the result list offers up to five
alternative locations.

Modules, one per source file, plus three helpers (`Inventory`, `Seqs`, `Text`):

- `Inventory` (inventory.dfy): the hotel, room, search and filter records, and the defaults.
- `Seqs` (seqs.dfy): order-preserving `Filter` with its subsequence, append and fusion lemmas.
- `Text` (text.dfy): lower-casing, substring search, JavaScript's `\s` set, `trim` and space removal.
- `Cards` (cards.dfy), for src/components/Cards.tsx: location narrowing, nights, cheapest room, total, commission badge, suggestions, the rendered view.
- `Search` (search.dfy), for src/components/Search.tsx: class `SearchBox`, the search bar's state, steppers, dropdown and emitted record.
- `Sidebar` (sidebar.dfy), for src/components/Sidebar.tsx: `Toggle` and class `FilterPanel`, the filter panel's state and emitted records.
- `Page` (page.dfy), for src/app/page.tsx: the type and price predicates, class `Home` with the page's state and handlers, and the callbacks that connect the children to `Home`.

The main result is `Page.DisplayedIsConjunction`. The list shown is the
fetched hotels filtered once by type, price and location together. This
holds whenever the page's filtered list was computed by
`handleFilterChange`, which `Home.HandleFilterChange` and `Home.Displayed`
state.

Points where the code behaves differently from what a reader might expect:

- The alternative locations come from the list the result list is given,
  not from the full inventory. That list is the one `handleFilterChange`
  last computed, narrowed by type and price; before any filter change it is
  the full inventory.
- Only a day difference of 0 becomes one night. A negative difference
  passes through unchanged.
- A property type matches only when it equals a selected type after both
  are lower-cased; a type that merely contains the selected one does not match.

## Model

| member | source | states |
|---|---|---|
| `Seqs.Filter` | src/app/page.tsx:90-108 | `filter` keeps an element iff it is in the input and satisfies the predicate |
| `Seqs.FilterCounts` | src/app/page.tsx:90-108 | each kept element occurs as often as in the input; rejected ones do not occur |
| `Seqs.FilterIsSubsequence` | src/app/page.tsx:90-108 | the kept elements stay in input order |
| `Cards.LocationFilter` | src/components/Cards.tsx:45-51 | with no search or an empty location the list is returned unchanged; otherwise a hotel is kept iff it is in the input and its lower-cased state contains the lower-cased query; a kept hotel occurs as often as in the input; the result is a subsequence of the input |
| `Cards.LocationFilterKeeps` | src/components/Cards.tsx:45-50 | for any search with a non-empty location, a hotel is kept iff the lower-cased query occurs at some position of its lower-cased state; a missing state reads as "" |
| `Text.ContainsIff` | src/components/Cards.tsx:47-49 | `includes` holds iff the needle occurs at some index of the haystack |
| `Text.Lower` | src/components/Cards.tsx:47-48 | lower-casing keeps the length, maps each character, and leaves no upper-case letter |
| `Cards.CalculateNights` | src/components/Cards.tsx:53-56 | nights is never 0: 1 for a same-day stay, the day difference otherwise (negative differences included) |
| `Cards.ReduceCheapest` | src/components/Cards.tsx:104-109 | the left-to-right reduction with strict `<` ends on a room whose rate is at most every rate, with every earlier room strictly dearer (first of equal minima) |
| `Cards.CheapestRoom` | src/components/Cards.tsx:103-110 | there is no cheapest room iff the room list is absent or empty; otherwise the chosen room is the first one of minimum rate |
| `Cards.CheapestTieGoesFirst` | src/components/Cards.tsx:104-109 | rates 5000, 3000, 3000 select index 1, not index 2 |
| `Cards.RoomCount` | src/components/Cards.tsx:117 | the room multiplier is the searched room count, or 1 without a search or when it is 0 |
| `Cards.Nights` | src/components/Cards.tsx:112-114 | the nights on a card are never 0: `calculateNights` of the searched dates, and 1 without a search |
| `Cards.TotalPrice` | src/components/Cards.tsx:115-119 | 0 without rooms; otherwise the rate of the first cheapest room times rooms times nights, for every stay including reversed dates |
| `Cards.TotalIsCheapestTotal` | src/components/Cards.tsx:103-119 | for every stay: a hotel without rooms totals 0 and otherwise the total is some room's total; with a positive stay multiplier it is also at most every room's total |
| `Cards.SameDayCountsOneNight` | src/components/Cards.tsx:112-119 | check-in equal to check-out, rate 10000, two rooms totals 20000, not 0 |
| `Cards.ShowsCommission` | src/components/Cards.tsx:192 | the badge shows iff the commission is absent or, with all whitespace removed, differs from "0%" |
| `Text.Trim` | src/components/Cards.tsx:192 | `trim` returns a slice `s[k..m]` of its input, everything outside the slice is whitespace, and the slice is empty or neither starts nor ends with whitespace |
| `Text.RemoveSpaces` | src/components/Cards.tsx:192 | the `/\s/g` replacement leaves no whitespace, keeps every other character as often as before, in order |
| `Text.RemoveSpacesTrim` | src/components/Cards.tsx:192 | removing every space after `trim` gives the same string as removing every space |
| `Cards.ZeroWithSpacesHidesBadge` | src/components/Cards.tsx:192 | commission " 0 %" hides the badge |
| `Cards.FivePercentShowsBadge` | src/components/Cards.tsx:192 | commission "5%" shows the badge |
| `Cards.StateSetMembers` | src/components/Cards.tsx:58-62 | the state set holds no duplicates, and holds a state iff some hotel has it present and non-empty |
| `Cards.StateSetPrefix` | src/components/Cards.tsx:58-63 | first-seen order: the set built from a prefix of the hotels is a prefix of the full set |
| `Cards.GetUniqueLocations` | src/components/Cards.tsx:58-64 | the suggestions are the first min(5, n) distinct states in first-seen order; each is a non-empty state of some hotel; with fewer than five, every such state is listed |
| `Cards.SelectLocation` | src/components/Cards.tsx:83-87 | a suggestion emits the search with only `location` replaced, and emits nothing without a search |
| `Cards.PriceCard` | src/components/Cards.tsx:102-119 | a card carries the hotel, the searched nights (1 without a search), the searched room count (1 without a search or for 0), the first cheapest room or none for "No room data", the total as that room's rate times rooms times nights (0 without one), and the badge decision |
| `Cards.SuggestionsExample` | src/components/Cards.tsx:58-64 | hotels in states A, B, A, C, D, E, F give the set A, B, C, D, E, F, whose first five (the suggestions) are A, B, C, D, E |
| `Cards.Render` | src/components/Cards.tsx:66-119 | the alternative-locations view appears iff the narrowed list is empty, and then lists the suggestions from the given hotels; otherwise there is one priced card per narrowed hotel, in order |
| `Page.SomeTypeMatches` | src/app/page.tsx:94-96 | true iff the hotel's lower-cased type equals some selected type lower-cased |
| `Page.TypeMatches` | src/app/page.tsx:92-96 | with no type selected every hotel passes; otherwise a hotel passes iff its type equals some selected type, ignoring case (exact, not substring) |
| `Page.SomeRoomInRange` | src/app/page.tsx:99-105 | true iff some room's rate r has lo <= r <= hi |
| `Page.PriceMatches` | src/app/page.tsx:99-105 | a hotel passes iff it has a room list with some rate inside the inclusive range; an absent or empty room list never passes |
| `Page.ApplyFilters` | src/app/page.tsx:90-108 | a hotel is kept iff it is fetched and passes both predicates, as often as it was fetched; the result is an order-preserving subsequence |
| `Page.DisplayedIsConjunction` | src/app/page.tsx:90-111 | type/price narrowing followed by location narrowing equals one filter of the fetched hotels by the conjunction of all three predicates |
| `Page.Home.constructor` | src/app/page.tsx:41-56 | no hotels, loading, search with empty location, 1 room, 1 adult, 0 children, today to today, no types and range [5000, 500000] |
| `Page.Home.FetchCompleted` | src/app/page.tsx:64-72 | on success both lists become the results; on failure both lists are kept; loading ends either way; the state invariant is preserved |
| `Page.Home.HandleSearch` | src/app/page.tsx:78-80 | the emitted search replaces the current one; lists and filters untouched |
| `Page.Home.HandleLocationSelect` | src/app/page.tsx:82-84 | the emitted search replaces the current one; lists and filters untouched |
| `Page.Home.HandleFilterChange` | src/app/page.tsx:86-112 | the filters are stored and the list is recomputed from the full inventory, independent of earlier filters; the shown list is then the conjunctive filter |
| `Page.Home.Displayed` | src/app/page.tsx:123-127 | once filtered, the shown list is the conjunctive filter of the inventory; before any filter change it is the inventory narrowed by location only |
| `Page.Home.View` | src/app/page.tsx:120-128 | the result list is rendered iff loading has ended; its empty-result view appears iff the shown list is empty and then offers the first min(5, n) states of the list handed on; otherwise it holds one priced card per shown hotel, in order |
| `Page.SubmitSearch` | src/app/page.tsx:117 | pressing search makes the page's search exactly the search bar's location, rooms, adults, children and dates |
| `Page.ToggleTypeFilter` | src/components/Sidebar.tsx:22-32 | a check box toggles the panel's types and the page narrows the inventory by the new types and the unchanged range |
| `Page.ChangePriceFilter` | src/components/Sidebar.tsx:34-40 | the slider replaces the range and the page narrows the inventory by it and the unchanged types |
| `Page.ApplyFilterButton` | src/components/Sidebar.tsx:143-147 | the apply button makes the page narrow the inventory by the panel's current state |
| `Page.PickSuggestion` | src/app/page.tsx:126 | choosing a suggestion changes only the location of the page's search |
| `Sidebar.Toggle` | src/components/Sidebar.tsx:23-25 | the type is in the result iff it was not in the input; other types keep their membership; a present type is removed everywhere with the others kept in order and count; an absent type is appended at the end |
| `Sidebar.ToggleTwiceRestores` | src/components/Sidebar.tsx:23-25 | toggling an absent type twice gives back the original list |
| `Sidebar.ToggleKeepsNoDuplicates` | src/components/Sidebar.tsx:23-25 | toggling never creates a duplicate type |
| `Sidebar.FilterPanel.constructor` | src/components/Sidebar.tsx:19-20 | the panel starts with no types and the range [5000, 500000] |
| `Sidebar.FilterPanel.HandlePropertyTypeChange` | src/components/Sidebar.tsx:22-32 | the types become the toggle of the old types; the check box flips; the emitted record is the new types with the unchanged range |
| `Sidebar.FilterPanel.HandlePriceChange` | src/components/Sidebar.tsx:34-40 | the range is replaced and emitted with the unchanged types |
| `Sidebar.FilterPanel.Apply` | src/components/Sidebar.tsx:143-147 | the emitted record is the current types and range, unchanged |
| `Search.StepDown` | src/components/Search.tsx:127 | a decrement gives max(floor, n - 1): never below the floor, and n - 1 when that is above it |
| `Search.SearchBox.constructor` | src/components/Search.tsx:24-34 | empty location, today to today, dropdown closed, 1 adult, 0 children, 1 room, all bounds holding |
| `Search.SearchBox.SetLocation` | src/components/Search.tsx:60 | typing replaces the location and nothing else |
| `Search.SearchBox.SetDateRange` | src/components/Search.tsx:98 | picking dates replaces both dates and nothing else |
| `Search.SearchBox.ToggleDropdown` | src/components/Search.tsx:36 | the dropdown flag flips |
| `Search.SearchBox.Done` | src/components/Search.tsx:37 | Done always closes the dropdown |
| `Search.SearchBox.DecrementAdults` | src/components/Search.tsx:127 | adults becomes max(1, adults - 1), so never below 1; bounds preserved |
| `Search.SearchBox.IncrementAdults` | src/components/Search.tsx:134 | adults goes up by exactly 1, nothing else changes |
| `Search.SearchBox.DecrementChildren` | src/components/Search.tsx:148 | children becomes max(0, children - 1), so never negative; bounds preserved |
| `Search.SearchBox.IncrementChildren` | src/components/Search.tsx:155 | children goes up by exactly 1, nothing else changes |
| `Search.SearchBox.DecrementRooms` | src/components/Search.tsx:168 | rooms becomes max(1, rooms - 1), so never below 1; bounds preserved |
| `Search.SearchBox.IncrementRooms` | src/components/Search.tsx:176 | rooms goes up by exactly 1, nothing else changes |
| `Search.SearchBox.HandleSearch` | src/components/Search.tsx:39-48 | the emitted record is exactly the current location, rooms, adults, children and dates |
| `Search.SearchBox.GuestSummary` | src/components/Search.tsx:50 | the summary is "<r> Room(s) - <g> Guest(s)" where r reads back as the room count and g as adults plus children, each printed with at least one digit and no leading zero |

Each stepper method names only the counter it changes in its `modifies`
clause, so nothing else can change. The constructor establishes
`SearchBox.Valid()` (adults >= 1, children >= 0, rooms >= 1), and every
stepper keeps it. So any sequence of stepper actions from the initial state
keeps the three bounds.

## Left out

- Network and I/O: the `fetch` and `res.json()` of the page and the proxy route (src/app/api/hotels/route.ts). `Home.FetchCompleted` takes the outcome as a parameter.
- Rendering: markup, styling, the date-picker visibility toggle, the navbar, the price-match banner on the first card, and the widgets (text fields, range slider, date range).
- Dates are whole day numbers and `differenceInDays` is their difference. Time of day, time zones and `format` are not modelled.
- Rates are already-parsed integers: `Number()` on rate strings, `NaN` and fractional rates are not modelled. `toLocaleString` formatting of totals is left out.
- `Text.Lower` lower-cases ASCII letters only, where `toLowerCase` follows full Unicode case mapping.
- `Sidebar.FilterPanel.HandlePriceChange` takes a two-ended range; the slider's `number[]` of any length, cast to a pair, is not modelled.
- Logging (`console.log`, `console.error`) is left out.
- Before the first filter change (and after a fetch that completes after one), the page hands on the whole inventory even though the default range is [5000, 500000]. `Home.Valid` states exactly this, and `Home.Displayed` has a separate case for it.

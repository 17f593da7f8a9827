/** The records that flow through the page: hotels as the listing service
    returns them, and the search and filter records the page holds. */
module Inventory {

  datatype Option<+T> = None | Some(value: T)

  /** A calendar day, as a day number; the day difference of two dates is
      their numeric difference. */
  type Day = int

  /** `rooms_rates_per_night` is already parsed to a number. */
  datatype Room = Room(rate: int, name: string)

  /** A listing. The fields the code reads with `?.` are optional. */
  datatype Hotel = Hotel(
    id: int,
    name: string,
    address: string,
    photos: seq<string>,
    city: string,
    state: Option<string>,
    starRating: int,
    payAtHotel: bool,
    commission: Option<string>,
    rooms: Option<seq<Room>>,
    propertyType: Option<string>)

  /** What a search asks for: `SearchParams` of the page. */
  datatype SearchParams = SearchParams(
    location: string,
    rooms: int,
    adults: int,
    children: int,
    startDate: Day,
    endDate: Day)

  /** `priceRange: [number, number]`, both ends inclusive. */
  datatype PriceRange = PriceRange(lo: int, hi: int)

  /** What the sidebar selects: `Filters` of the page. */
  datatype Filters = Filters(propertyTypes: seq<string>, priceRange: PriceRange)

  /** The lower and upper ends of the budget slider. */
  const MinPrice := 5000
  const MaxPrice := 500000

  /** The filter record before any sidebar change. */
  const DefaultFilters := Filters([], PriceRange(MinPrice, MaxPrice))

  /** The search record before any search: nothing typed, one room, one
      adult, no children, check-in and check-out both today. */
  function DefaultSearch(today: Day): SearchParams
  {
    SearchParams("", 1, 1, 0, today, today)
  }
}

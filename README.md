# Hotel pricing engine and room allocation, modelled in Dafny

The two services of the hotel pricing engine hold all of its decision logic:

- **PricingService** computes a room's adjusted nightly price:
  `round2(base(roomType) * (1 + season + occupancy + competitor))`. The base prices are Standard 90, Deluxe 140
  and Suite 240. The season factors are "Off-Season" -0.20 and "Peak Season" +0.30, and 0 for any other
  season. The occupancy factor is -0.10 up to 30, 0 up to 70, and +0.20 above 70. It also derives the
  competitor adjustment from competitors' historical prices, in two variants. The first filters on room
  type, season, occupancy band and competitor name. The second, `GetCompetitorAdjustmentAutamatcly`,
  filters on room type and season only. Both average the selected prices, form the ratio to the base price,
  round it to a tenth and clamp it to [-0.10, 0.10].
- **RoomAllocationService** owns a fixed inventory of three rooms keyed by room type: Deluxe 101, sea view,
  not connecting; Standard 202, garden view, connecting; Suite 301, city view, not connecting. A request
  gets the room of its type when that room is free and its connecting flag and view are exactly the
  requested ones. The room then stays occupied until a bulk reset. `AllocateRoom` charges the nightly price
  times the nights. `AllocateRoomWhenBooking` adds the view factor (sea 0.05, garden 0.02, city 0.03) and
  the connecting-room factor (0.05), then rounds to cents.

Files:

- `wrappers.dfy`: `Option` (a reference that may be null) and `Result` (a value or the exception thrown).
- `models.dfy`: the records of the `Models` namespace as datatypes.
- `rounding.dfy`: .NET `Math.Round` with its default ties-to-even rule, to an integer and to two decimals.
- `pricing_service.dfy`: the pricing service, as functions over read-only tables.
- `room_allocation_service.dfy`: the allocation service, as a class whose `rooms` map the methods update.
  The file also holds the lemmas about its state changes and the unit-test scenarios, each stated on a fresh service.

Modelling choices:

- Prices and factors are `real`. Both overloads of `Math.Round`, to an integer and to two decimals, round ties to even on exact decimals.
- Room type, season and view are strings, the way the services key their tables. The enumerations of
  `Models/Enums.cs` do not match the string-typed fields the services use.
- A null request or record list is `None`. The exceptions are `Failure(ArgumentNull(param))` and
  `Failure(InvalidArgument(message, param))`.
- The competitor records that the CSV reader would supply are an input sequence.

Where the unit tests disagree with the code, the model follows the code:

- The adjusted-price test expects 135, but the formula gives 140 * 1.35 = 189 (`CalculateAdjustedPriceExample`).
- The competitor test expects 0.10, but a mean of 125 against a base of 140 gives -0.1 (`CompetitorAdjustmentExample`).
- The `AllocateRoom` test expects 210, but that method applies no factors and gives 200 (`AllocateRoomScenario`).
  The booking variant gives 210 (`AllocateRoomWhenBookingScenario`).

## Model

| member | source | states |
|---|---|---|
| Rounding.RoundHalfEven | Services/PricingService.cs:88 | the result is within 1/2 of the argument, and on an exact tie it is even |
| Rounding.RoundHalfEvenUnique | Services/PricingService.cs:88 | those two properties determine the rounded integer uniquely |
| Rounding.RoundHalfEvenOfInt | Services/PricingService.cs:88 | an integer rounds to itself |
| Rounding.RoundHalfEvenMonotone | Services/PricingService.cs:88 | rounding preserves the order of its arguments |
| Rounding.RoundTo2 | Services/PricingService.cs:59 | rounding to two decimals gives whole cents within half a cent of the argument, and the even cent on an exact tie |
| Rounding.RoundTo2OfCents | Services/PricingService.cs:59 | a value already in whole cents is unchanged |
| Rounding.RoundTo2Monotone | Services/PricingService.cs:59 | rounding to cents preserves order |
| Rounding.RoundTo2Idempotent | Services/PricingService.cs:59 | rounding to cents twice is rounding once |
| PricingService.SeasonalityFactor | Services/PricingService.cs:24-28 | "Off-Season" -0.20, "Peak Season" +0.30, every other string 0 |
| PricingService.GetOccupancyRateFactor | Services/PricingService.cs:130-135 | the factor is one of -0.10, 0, 0.20; it is -0.10 exactly when the rate is at most 30, and 0.20 exactly when it is above 70 |
| PricingService.OccupancyRateFactorMonotone | Services/PricingService.cs:130-135 | the occupancy factor is non-decreasing in the rate |
| PricingService.IsPriceInOccupancyRange | Services/PricingService.cs:138-143 | a record is in range exactly when it is on the same side of 70 as the request; the 30 disjunct is subsumed |
| PricingService.CalculateAdjustedPrice | Services/PricingService.cs:35-61 | a null request and an unknown room type fail, with their distinct exceptions; otherwise the room type and base price are echoed, and the adjusted price is base * (1 + season + occupancy + competitor) rounded to cents, so it is whole cents within half a cent of the exact price |
| PricingService.AdjustedPriceMonotoneInOccupancy | Services/PricingService.cs:49-59 | a higher occupancy rate never lowers the adjusted price |
| PricingService.AdjustedPriceMonotoneInCompetitorAdjustment | Services/PricingService.cs:52-59 | a larger competitor adjustment never lowers the adjusted price |
| PricingService.AdjustedPriceOrderedBySeason | Services/PricingService.cs:47-59 | off-season price <= price for an unlisted season <= peak-season price |
| PricingService.CalculateAdjustedPriceExample | HotelPricingEngine.Tests/PricingServiceTests.cs:21-38 | Deluxe, peak season, occupancy 50, adjustment 0.05 gives base 140 and adjusted price 189 |
| PricingService.CalculateAdjustedPriceInvalidRoomType | HotelPricingEngine.Tests/PricingServiceTests.cs:41-54 | room type "Invalid" fails with the invalid-argument error on RoomType |
| PricingService.CountKept | Services/PricingService.cs:71-77 | the number of kept records is at most the number of records |
| PricingService.FilteredPrices | Services/PricingService.cs:71-77 | exactly one price is selected per kept record |
| PricingService.MatchesRequest | Services/PricingService.cs:72-75 | a record counts iff its room type and season equal the request's, it is on the same side of 70 as the request's occupancy, and its competitor is one the request names |
| PricingService.MatchesRoomAndSeason | Services/PricingService.cs:104-105 | every record the full filter keeps is kept by the room-and-season filter |
| PricingService.FilteredPricesMembers | Services/PricingService.cs:71-77 | a price is selected exactly when some record passing the filter carries it |
| PricingService.FilteredPricesEmpty | Services/PricingService.cs:71-82 | nothing is selected exactly when no record passes the filter |
| PricingService.FilteredPricesAgree | Services/PricingService.cs:103-108 | two filters that agree on every record select the same prices |
| PricingService.AverageOrZero | Services/PricingService.cs:80-82 | no prices give 0; otherwise the mean times the count is the sum |
| PricingService.SumBounds | Services/PricingService.cs:80-82 | the sum of n prices between lo and hi lies between n*lo and n*hi |
| PricingService.AverageBounds | Services/PricingService.cs:80-82 | the mean of a non-empty list of prices lies between any bounds of its elements |
| PricingService.CompetitorRatio | Services/PricingService.cs:85-87 | a mean that is not positive gives 0; for a known room type the ratio times the base is the mean minus the base; for an unknown room type the ratio is the mean itself |
| PricingService.Clamp | Services/PricingService.cs:91 | the clamped value is within the bounds; it is the input when the input is in bounds, else the bound it crossed |
| PricingService.RoundedTenthsSign | Services/PricingService.cs:88 | the rounded value is >= 1 exactly above 0.5 and <= -1 exactly below -0.5 (ties go to 0) |
| PricingService.AdjustmentFromRatio | Services/PricingService.cs:88-91 | the rounded and clamped ratio is +0.1 iff ratio > 0.05, -0.1 iff ratio < -0.05, and 0 iff -0.05 <= ratio <= 0.05 |
| PricingService.AdjustmentFromAverage | Services/PricingService.cs:85-91 | the adjustment from a mean price is always one of -0.1, 0, 0.1 |
| PricingService.AdjustmentAgainstBasePrice | Services/PricingService.cs:85-91 | for a known room type with base b: +0.1 iff the mean exceeds 1.05 b, -0.1 iff it is positive and below 0.95 b |
| PricingService.AdjustmentForUnknownRoomType | Services/PricingService.cs:117-123 | for a room type without a base price, a mean above 0.05 gives +0.1 and a mean up to 0.05 gives 0 |
| PricingService.AdjustmentForUnknownRoomTypeExample | Services/PricingService.cs:85-91 | a mean of 100 for "Penthouse" gives +0.1 |
| PricingService.GetCompetitorAdjustment | Services/PricingService.cs:64-94 | a null record list fails first, then a null request; otherwise the result is in [-0.10, 0.10] and one of -0.1, 0, 0.1 |
| PricingService.GetCompetitorAdjustmentAutamatcly | Services/PricingService.cs:96-125 | the same error cases, bounds and three possible values for the room-and-season-only variant |
| PricingService.CompetitorAdjustmentSignRule | Services/PricingService.cs:71-91 | +0.1, -0.1 or 0 according to the ratio of the filtered records' mean, with the 0.05 thresholds |
| PricingService.CompetitorAdjustmentAutamatclySignRule | Services/PricingService.cs:103-123 | the same sign rule over the room-and-season filter |
| PricingService.CompetitorAdjustmentNoMatch | Services/PricingService.cs:71-87 | when no record passes the full filter, the adjustment is 0 |
| PricingService.CompetitorAdjustmentAutamatclyNoMatch | Services/PricingService.cs:103-119 | when no record has the room type and season, the adjustment is 0 |
| PricingService.CompetitorAdjustmentNonPositivePrices | Services/PricingService.cs:80-87 | when no price is positive, the mean is not positive and both variants give 0 |
| PricingService.CompetitorAdjustmentNonPositiveMean | Services/PricingService.cs:80-87 | whenever the mean of the selected prices is not positive, GetCompetitorAdjustment gives 0 |
| PricingService.CompetitorAdjustmentAutamatclyNonPositiveMean | Services/PricingService.cs:111-119 | whenever the mean of the room-and-season prices is not positive, the second variant gives 0 |
| PricingService.NonPositiveMean | Services/PricingService.cs:80-82 | the mean of prices that are all at most 0 is at most 0 |
| PricingService.AutamatclyAgreesWhenFiltersCoincide | Services/PricingService.cs:103-108 | the two variants are equal when every room-and-season match also passes the occupancy and competitor-name tests |
| PricingService.CompetitorAdjustmentExample | HotelPricingEngine.Tests/PricingServiceTests.cs:57-72 | Deluxe records at 120 and 130 have a mean of 125 against a base of 140, which gives -0.1 |
| PricingService.CompetitorAdjustmentEmptyExample | HotelPricingEngine.Tests/PricingServiceTests.cs:75-86 | an empty record list gives 0 |
| RoomAllocationService.InitialRooms | Services/RoomAllocationService.cs:7-12 | the three room types Deluxe, Standard and Suite, with distinct room ids, all available, each view one with a listed factor |
| RoomAllocationService.ViewFactor | Services/RoomAllocationService.cs:14-19 | sea 0.05, garden 0.02, city 0.03, any other view 0 |
| RoomAllocationService.ConnectingFactor | Services/RoomAllocationService.cs:21-26 | 0.05 for a connecting room, 0 otherwise |
| RoomAllocationService.CanAllocate | Services/RoomAllocationService.cs:44-49 | a request can be served iff its room type is present, that room is not occupied, and its connecting flag and view equal the requested ones |
| RoomAllocationService.AfterAllocation | Services/RoomAllocationService.cs:44-52 | same keys and attributes; only the matched room changes, and it becomes occupied; a failed attempt changes nothing |
| RoomAllocationService.ResetAll | Services/RoomAllocationService.cs:147-150 | same keys; every room available with its id, connecting flag and view unchanged |
| RoomAllocationService.Unallocated | Services/RoomAllocationService.cs:78-84 | the failure response has id -1 and price 0, and echoes the room type and special requests |
| RoomAllocationService.BookingTotalPrice | Services/RoomAllocationService.cs:113 | the booking total is whole cents within half a cent of price * nights * (1 + view + connecting) |
| RoomAllocationService.RoomAllocationService.constructor | Services/RoomAllocationService.cs:7-12 | the inventory starts as exactly the three rooms, all available |
| RoomAllocationService.RoomAllocationService.AllocateRoom | Services/RoomAllocationService.cs:38-86 | the new inventory is AfterAllocation of the old; on a match it returns the room's id and price * nights, with no factor and no rounding; otherwise the failure response |
| RoomAllocationService.RoomAllocationService.AllocateRoomWhenBooking | Services/RoomAllocationService.cs:89-138 | the same match and state change; on a match the total is BookingTotalPrice |
| RoomAllocationService.RoomAllocationService.ResetRoomAvailability | Services/RoomAllocationService.cs:142-153 | the new inventory is ResetAll of the old |
| RoomAllocationService.InitialInventory | Services/RoomAllocationService.cs:7-12 | the initial inventory satisfies the invariant and no room is occupied |
| RoomAllocationService.InventoryPreserved | Services/RoomAllocationService.cs:52 | allocation and reset keep every room type, id, connecting flag and view as they started |
| RoomAllocationService.AllocationOccupiesOneRoom | Services/RoomAllocationService.cs:44-52 | a success occupies exactly the requested type, which was free before; a failure occupies nothing |
| RoomAllocationService.ResetFreesAll | Services/RoomAllocationService.cs:147-150 | after a reset no room is occupied |
| RoomAllocationService.ResetIdempotent | Services/RoomAllocationService.cs:142-153 | resetting twice is resetting once |
| RoomAllocationService.SecondAllocationFails | Services/RoomAllocationService.cs:47-52 | after a successful allocation, no request for that type succeeds until a reset |
| RoomAllocationService.RepeatedRequestFails | HotelPricingEngine.Tests/RoomAllocationServiceTests.cs:48-75 | the same request made twice with no reset never succeeds the second time |
| RoomAllocationService.ResetMakesAllocatable | Services/RoomAllocationService.cs:142-153 | after a reset a room type is allocatable exactly when its special requests match, and it keeps the same id |
| RoomAllocationService.AllocatedViewHasFactor | Services/RoomAllocationService.cs:105 | an allocatable room's view always has a listed factor, so the default 0 is never used |
| RoomAllocationService.BookingTotalPriceExample | HotelPricingEngine.Tests/RoomAllocationServiceTests.cs:78-103 | 100 a night, 2 nights, sea view, no connecting room gives 210 |
| RoomAllocationService.AllocateRoomScenario | HotelPricingEngine.Tests/RoomAllocationServiceTests.cs:20-45 | on a fresh service, Deluxe for 2 nights at 100 gets room 101 for 200 |
| RoomAllocationService.AllocateTwiceScenario | HotelPricingEngine.Tests/RoomAllocationServiceTests.cs:48-75 | the second identical request gets -1 and price 0 |
| RoomAllocationService.AllocateRoomWhenBookingScenario | HotelPricingEngine.Tests/RoomAllocationServiceTests.cs:78-103 | the booking flow gets room 101 for 210 |
| RoomAllocationService.ResetScenario | HotelPricingEngine.Tests/RoomAllocationServiceTests.cs:106-132 | allocate, reset, allocate again gets room 101 again |

## Left out

- `GetCompetitorPricesAsync` (Services/PricingService.cs:146-170): it reads the CSV file asynchronously and returns an empty list on any error. This is file I/O, so the records are an input instead.
- The `lock` blocks and concurrent callers: each method is modelled as one atomic sequential step. What the lock buys under parallel calls (exactly one of N racing requests succeeds) is not modelled.
- Logging and the `Console.WriteLine` of the mean price: these side effects carry no behaviour.
- IEEE-754 double arithmetic: prices are exact reals, so a midpoint that a double cannot represent exactly is treated as a true tie.
- Null values other than a null pricing request and a null record list are not modelled; the strings, lists and nested objects are non-null values:
  - A null string field of a competitor record compares unequal to the request's, because C# string `==` does not throw. Records with missing CSV fields therefore simply fail the filters, with no error.
  - A null room type or season in a request is a dictionary key, and the lookup throws ArgumentNullException (Services/PricingService.cs:41, 47 and 86; Services/RoomAllocationService.cs:44 and 95).
  - A null `CompetitorPrices` list in a pricing request makes `Contains` throw at Services/PricingService.cs:75 once a record reaches that test.
  - A null `PreferredView` fails the view comparison and yields the sentinel response.
  - A null `SpecialRequests` makes both allocation methods throw at the match test, once the room exists and is available (Services/RoomAllocationService.cs:48 and 99).
  - The allocation methods take a non-null request and pricing response. With a null `pricingResponse` and a matching request, the source throws at Services/RoomAllocationService.cs:60 or 113. By then line 52 or 103 has already marked the room occupied, so the room stays occupied with no response returned. The model does not capture that path.
- Room objects are values in the inventory map, not shared mutable objects. Aliasing a `Room` from outside the service is not modelled; the service never exposes one.
- The controllers, `Program.cs`, the Swagger example providers, `Models/BookingResponse.cs` and the enumerations of `Models/Enums.cs` are not part of this model.

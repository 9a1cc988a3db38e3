/**
 * The records of the Models namespace. Room type, season and view are the
 * strings the services compare and look up; the enumerations of Models/Enums.cs
 * are not what the service code keys its tables by.
 */
module Models {

  /** One room of the inventory; the room type is the key it is stored under. */
  datatype Room = Room(
    id: int,
    hasConnectingRooms: bool,
    availableView: string,
    isAvailable: bool)

  /** What a caller asks the pricing service about. */
  datatype PricingRequest = PricingRequest(
    roomType: string,
    season: string,
    occupancyRate: int,
    /** The competitor names whose records count. */
    competitorPrices: seq<string>)

  datatype PricingResponse = PricingResponse(
    roomType: string,
    basePrice: real,
    adjustedPrice: real)

  /** One row of the competitors' historical price data. */
  datatype CompetitorPriceRecord = CompetitorPriceRecord(
    title: string,
    date: string,
    roomType: string,
    season: string,
    occupancyRate: int,
    basePrice: real,
    competitor: string,
    id: int,
    haveConnectingRooms: bool,
    availableViews: string)

  datatype SpecialRequests = SpecialRequests(
    preferredView: string,
    connectingRoom: bool)

  datatype RoomAllocationRequest = RoomAllocationRequest(
    roomType: string,
    nights: int,
    season: string,
    specialRequests: SpecialRequests)

  /** The request type of the booking flow; it also carries an occupancy rate. */
  datatype BookingRequest = BookingRequest(
    roomType: string,
    nights: int,
    season: string,
    specialRequests: SpecialRequests,
    occupancyRate: int)

  /** An allocation outcome; `allocatedRoomId == -1` means no room was allocated. */
  datatype RoomAllocationResponse = RoomAllocationResponse(
    roomType: string,
    allocatedRoomId: int,
    totalPrice: real,
    specialRequests: SpecialRequests)

  /** The sentinel room id of a failed allocation. */
  const NoRoom: int := -1
}

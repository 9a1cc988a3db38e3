/**
 * The room allocation service: a fixed inventory of three rooms keyed by room
 * type, allocated one booking at a time and freed only by a bulk reset. Each
 * method is one atomic step; the lock that makes it so is not modelled.
 */
module RoomAllocationService {
  import opened Models
  import opened Rounding

  /** The price factor of each view. */
  const PreferredViewFactors: map<string, real> := map["sea" := 0.05, "garden" := 0.02, "city" := 0.03]

  /** The price factor of a connecting-room request. */
  const ConnectingRoomsFactors: map<bool, real> := map[true := 0.05, false := 0.0]

  /** The inventory as the service starts: the three room types, each with its own room id, every room available. */
  function InitialRooms(): (r: map<string, Room>)
    ensures r.Keys == {"Deluxe", "Standard", "Suite"}
    ensures forall k :: k in r ==> r[k].isAvailable && r[k].availableView in PreferredViewFactors
    ensures forall a, b :: a in r && b in r && a != b ==> r[a].id != r[b].id
  {
    map[
      "Deluxe" := Room(101, false, "sea", true),
      "Standard" := Room(202, true, "garden", true),
      "Suite" := Room(301, false, "city", true)]
  }

  /** The view factor; a view without an entry has factor 0. */
  function ViewFactor(view: string): (f: real)
    ensures f == (if view == "sea" then 0.05
                  else if view == "garden" then 0.02
                  else if view == "city" then 0.03
                  else 0.0)
  {
    if view in PreferredViewFactors then PreferredViewFactors[view] else 0.0
  }

  /** The connecting-room factor: 0.05 when a connecting room is asked for, else 0. */
  function ConnectingFactor(connecting: bool): (f: real)
    ensures f == (if connecting then 0.05 else 0.0)
  {
    if connecting in ConnectingRoomsFactors then ConnectingRoomsFactors[connecting] else 0.0
  }

  /** Two rooms that agree on everything but availability. */
  predicate SameAttributes(a: Room, b: Room) {
    a.id == b.id && a.hasConnectingRooms == b.hasConnectingRooms && a.availableView == b.availableView
  }

  /**
   * Whether a request can be given the room of its type: the type is in the
   * inventory, its room is available, and the connecting-room flag and the
   * view are exactly the ones requested.
   */
  function CanAllocate(rooms: map<string, Room>, roomType: string, special: SpecialRequests): (b: bool)
    ensures b <==> && roomType in rooms
                   && roomType !in OccupiedRoomTypes(rooms)
                   && rooms[roomType].hasConnectingRooms == special.connectingRoom
                   && rooms[roomType].availableView == special.preferredView
  {
    && roomType in rooms
    && rooms[roomType].isAvailable
    && rooms[roomType].hasConnectingRooms == special.connectingRoom
    && rooms[roomType].availableView == special.preferredView
  }

  /**
   * The inventory after an allocation attempt: on success the matched room
   * becomes occupied; nothing else changes, and a failed attempt changes nothing.
   */
  function AfterAllocation(rooms: map<string, Room>, roomType: string, special: SpecialRequests): (r: map<string, Room>)
    ensures r.Keys == rooms.Keys
    ensures forall k :: k in rooms ==> SameAttributes(r[k], rooms[k])
    ensures forall k :: k in rooms && k != roomType ==> r[k] == rooms[k]
    ensures CanAllocate(rooms, roomType, special) ==> !r[roomType].isAvailable
    ensures !CanAllocate(rooms, roomType, special) ==> r == rooms
  {
    if CanAllocate(rooms, roomType, special) then rooms[roomType := rooms[roomType].(isAvailable := false)]
    else rooms
  }

  /** The inventory after a reset: every room available, nothing else changed. */
  function ResetAll(rooms: map<string, Room>): (r: map<string, Room>)
    ensures r.Keys == rooms.Keys
    ensures forall k :: k in r ==> r[k].isAvailable && SameAttributes(r[k], rooms[k])
  {
    map k | k in rooms :: rooms[k].(isAvailable := true)
  }

  /** The room types whose room is occupied. */
  function OccupiedRoomTypes(rooms: map<string, Room>): (occupied: set<string>) {
    set k | k in rooms && !rooms[k].isAvailable
  }

  /** The response of a failed allocation: no room, no price, the special requests echoed. */
  function Unallocated(roomType: string, special: SpecialRequests): (r: RoomAllocationResponse)
    ensures r.allocatedRoomId == NoRoom && r.totalPrice == 0.0
    ensures r.roomType == roomType && r.specialRequests == special
  {
    RoomAllocationResponse(roomType, NoRoom, 0.0, special)
  }

  /** The unrounded booking price: nightly price times nights times one plus the special-request factors. */
  function ExactBookingPrice(adjustedPrice: real, nights: int, special: SpecialRequests): (p: real) {
    adjustedPrice * nights as real * (1.0 + ViewFactor(special.preferredView) + ConnectingFactor(special.connectingRoom))
  }

  /** The total of AllocateRoomWhenBooking: the exact booking price rounded to whole cents. */
  function BookingTotalPrice(adjustedPrice: real, nights: int, special: SpecialRequests): (total: real)
    ensures IsWholeCents(total)
    ensures -0.005 <= total - ExactBookingPrice(adjustedPrice, nights, special) <= 0.005
  {
    RoundTo2(ExactBookingPrice(adjustedPrice, nights, special))
  }

  /** The inventory invariant: the three room types, with their ids, connections and views as they started. */
  ghost predicate Inventory(rooms: map<string, Room>) {
    && rooms.Keys == InitialRooms().Keys
    && forall k :: k in rooms ==> SameAttributes(rooms[k], InitialRooms()[k])
  }

  class RoomAllocationService {
    /** The inventory, keyed by room type. */
    var rooms: map<string, Room>

    ghost predicate Valid()
      reads this
    {
      Inventory(rooms)
    }

    constructor ()
      ensures Valid()
      ensures rooms == InitialRooms()
    {
      rooms := InitialRooms();
    }

    /**
     * AllocateRoom: on a match the room becomes occupied and the total is the
     * nightly price times the nights, with no factor and no rounding; otherwise
     * nothing changes and the response is the sentinel.
     */
    method AllocateRoom(request: RoomAllocationRequest, pricingResponse: PricingResponse)
      returns (response: RoomAllocationResponse)
      requires Valid()
      modifies this
      ensures Valid()
      ensures rooms == AfterAllocation(old(rooms), request.roomType, request.specialRequests)
      ensures CanAllocate(old(rooms), request.roomType, request.specialRequests) ==>
                response == RoomAllocationResponse(request.roomType, old(rooms)[request.roomType].id,
                                                   pricingResponse.adjustedPrice * request.nights as real,
                                                   request.specialRequests)
      ensures !CanAllocate(old(rooms), request.roomType, request.specialRequests) ==>
                response == Unallocated(request.roomType, request.specialRequests)
    {
      var special := request.specialRequests;
      if request.roomType in rooms {
        var room := rooms[request.roomType];
        if room.isAvailable && room.hasConnectingRooms == special.connectingRoom && room.availableView == special.preferredView {
          rooms := rooms[request.roomType := room.(isAvailable := false)];
          response := RoomAllocationResponse(request.roomType, room.id, pricingResponse.adjustedPrice * request.nights as real, special);
          return;
        }
      }
      response := Unallocated(request.roomType, special);
    }

    /**
     * AllocateRoomWhenBooking: the same match and state change as AllocateRoom;
     * the total adds the view and connecting-room factors and is rounded to cents.
     */
    method AllocateRoomWhenBooking(request: BookingRequest, pricingResponse: PricingResponse)
      returns (response: RoomAllocationResponse)
      requires Valid()
      modifies this
      ensures Valid()
      ensures rooms == AfterAllocation(old(rooms), request.roomType, request.specialRequests)
      ensures CanAllocate(old(rooms), request.roomType, request.specialRequests) ==>
                response == RoomAllocationResponse(request.roomType, old(rooms)[request.roomType].id,
                                                   BookingTotalPrice(pricingResponse.adjustedPrice, request.nights, request.specialRequests),
                                                   request.specialRequests)
      ensures !CanAllocate(old(rooms), request.roomType, request.specialRequests) ==>
                response == Unallocated(request.roomType, request.specialRequests)
    {
      var special := request.specialRequests;
      if request.roomType in rooms {
        var room := rooms[request.roomType];
        if room.isAvailable && room.hasConnectingRooms == special.connectingRoom && room.availableView == special.preferredView {
          rooms := rooms[request.roomType := room.(isAvailable := false)];
          var viewFactor := ViewFactor(special.preferredView);
          var connectingFactor := ConnectingFactor(special.connectingRoom);
          var total := RoundTo2(pricingResponse.adjustedPrice * request.nights as real * (1.0 + viewFactor + connectingFactor));
          assert pricingResponse.adjustedPrice * request.nights as real * (1.0 + viewFactor + connectingFactor)
                 == ExactBookingPrice(pricingResponse.adjustedPrice, request.nights, special);
          assert total == BookingTotalPrice(pricingResponse.adjustedPrice, request.nights, special);
          response := RoomAllocationResponse(request.roomType, room.id, total, special);
          return;
        }
      }
      response := Unallocated(request.roomType, special);
    }

    /** ResetRoomAvailability: every room available again, nothing else changed. */
    method ResetRoomAvailability()
      requires Valid()
      modifies this
      ensures Valid()
      ensures rooms == ResetAll(old(rooms))
    {
      var pending := rooms.Keys;
      while pending != {}
        invariant rooms.Keys == old(rooms).Keys
        invariant pending <= rooms.Keys
        invariant forall k :: k in rooms ==>
                    rooms[k] == if k in pending then old(rooms)[k] else old(rooms)[k].(isAvailable := true)
        decreases pending
      {
        var k :| k in pending;
        rooms := rooms[k := rooms[k].(isAvailable := true)];
        pending := pending - {k};
      }
    }
  }

  // ---------------------------------------------------------------------------
  // Properties of the inventory
  // ---------------------------------------------------------------------------

  /** The initial inventory satisfies the invariant, and every room is available. */
  lemma InitialInventory()
    ensures Inventory(InitialRooms())
    ensures OccupiedRoomTypes(InitialRooms()) == {}
  {
  }

  /** Allocation and reset keep the inventory invariant. */
  lemma InventoryPreserved(rooms: map<string, Room>, roomType: string, special: SpecialRequests)
    requires Inventory(rooms)
    ensures Inventory(AfterAllocation(rooms, roomType, special))
    ensures Inventory(ResetAll(rooms))
  {
  }

  /** A successful allocation occupies exactly the requested type; a failed one occupies nothing. */
  lemma AllocationOccupiesOneRoom(rooms: map<string, Room>, roomType: string, special: SpecialRequests)
    ensures CanAllocate(rooms, roomType, special) ==>
              roomType !in OccupiedRoomTypes(rooms) &&
              OccupiedRoomTypes(AfterAllocation(rooms, roomType, special)) == OccupiedRoomTypes(rooms) + {roomType}
    ensures !CanAllocate(rooms, roomType, special) ==>
              OccupiedRoomTypes(AfterAllocation(rooms, roomType, special)) == OccupiedRoomTypes(rooms)
  {
  }

  /** After a reset no room is occupied. */
  lemma ResetFreesAll(rooms: map<string, Room>)
    ensures OccupiedRoomTypes(ResetAll(rooms)) == {}
  {
  }

  /** Resetting twice is resetting once. */
  lemma ResetIdempotent(rooms: map<string, Room>)
    ensures ResetAll(ResetAll(rooms)) == ResetAll(rooms)
  {
  }

  /** Once a room type is allocated, no request for it succeeds until a reset. */
  lemma SecondAllocationFails(rooms: map<string, Room>, roomType: string, first: SpecialRequests, second: SpecialRequests)
    requires CanAllocate(rooms, roomType, first)
    ensures !CanAllocate(AfterAllocation(rooms, roomType, first), roomType, second)
  {
  }

  /** Repeating a request without a reset never succeeds the second time. */
  lemma RepeatedRequestFails(rooms: map<string, Room>, roomType: string, special: SpecialRequests)
    ensures !CanAllocate(AfterAllocation(rooms, roomType, special), roomType, special)
  {
  }

  /** After a reset, a room type of the inventory is allocatable again, with the same room id, exactly when its special requests match. */
  lemma ResetMakesAllocatable(rooms: map<string, Room>, roomType: string, special: SpecialRequests)
    requires roomType in rooms
    ensures CanAllocate(ResetAll(rooms), roomType, special) <==>
              rooms[roomType].hasConnectingRooms == special.connectingRoom &&
              rooms[roomType].availableView == special.preferredView
    ensures ResetAll(rooms)[roomType].id == rooms[roomType].id
  {
  }

  /** A room the inventory can allocate always has a view with a listed factor, so the default factor 0 is never used. */
  lemma AllocatedViewHasFactor(rooms: map<string, Room>, roomType: string, special: SpecialRequests)
    requires Inventory(rooms)
    requires CanAllocate(rooms, roomType, special)
    ensures special.preferredView in PreferredViewFactors
    ensures ViewFactor(special.preferredView) > 0.0
  {
    assert roomType in InitialRooms();
  }

  /** 100 a night for 2 nights with a sea view and no connecting room: 100 * 2 * 1.05 = 210. */
  lemma BookingTotalPriceExample()
    ensures BookingTotalPrice(100.0, 2, SpecialRequests("sea", false)) == 210.0
  {
    assert ExactBookingPrice(100.0, 2, SpecialRequests("sea", false)) == 21000 as real / 100.0;
    RoundTo2OfCents(21000);
  }

  // ---------------------------------------------------------------------------
  // Scenarios on a fresh service
  // ---------------------------------------------------------------------------

  /** A Deluxe sea-view request for 2 nights at 100 gets room 101 for 100 * 2 = 200. */
  method AllocateRoomScenario() returns (response: RoomAllocationResponse)
    ensures response.allocatedRoomId == 101
    ensures response.totalPrice == 200.0
  {
    var service := new RoomAllocationService();
    var request := RoomAllocationRequest("Deluxe", 2, "", SpecialRequests("sea", false));
    response := service.AllocateRoom(request, PricingResponse("Deluxe", 0.0, 100.0));
  }

  /** The same request twice: the second finds room 101 occupied. */
  method AllocateTwiceScenario() returns (first: RoomAllocationResponse, second: RoomAllocationResponse)
    ensures first.allocatedRoomId == 101
    ensures second.allocatedRoomId == NoRoom && second.totalPrice == 0.0
  {
    var service := new RoomAllocationService();
    var request := RoomAllocationRequest("Deluxe", 2, "", SpecialRequests("sea", false));
    first := service.AllocateRoom(request, PricingResponse("Deluxe", 0.0, 100.0));
    second := service.AllocateRoom(request, PricingResponse("Deluxe", 0.0, 100.0));
  }

  /** The booking flow adds the sea-view factor: 210 for the same request. */
  method AllocateRoomWhenBookingScenario() returns (response: RoomAllocationResponse)
    ensures response.allocatedRoomId == 101
    ensures response.totalPrice == 210.0
  {
    var service := new RoomAllocationService();
    var request := BookingRequest("Deluxe", 2, "", SpecialRequests("sea", false), 0);
    response := service.AllocateRoomWhenBooking(request, PricingResponse("Deluxe", 0.0, 100.0));
    BookingTotalPriceExample();
  }

  /** Allocate, reset, allocate again: the second allocation gets room 101 again. */
  method ResetScenario() returns (response: RoomAllocationResponse)
    ensures response.allocatedRoomId == 101
  {
    var service := new RoomAllocationService();
    var request := RoomAllocationRequest("Deluxe", 2, "", SpecialRequests("sea", false));
    var first := service.AllocateRoom(request, PricingResponse("Deluxe", 0.0, 100.0));
    service.ResetRoomAvailability();
    response := service.AllocateRoom(request, PricingResponse("Deluxe", 0.0, 100.0));
  }
}

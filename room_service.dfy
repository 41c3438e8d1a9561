/** The room service: the validation chain for a room payload, the check that
    a new capacity still fits the room's bookings, and the room store. */
module RoomService {
  import opened Common
  import opened Decimal
  import opened Entities
  import opened BookingRepository

  const NameTooLongMessage := "Name cannot be more than 100 characters"
  const LocationMessage := "Location must be either 'Thessaloniki' or 'Cologne'"
  const NegativeCapacityMessage := "Capacity cannot be less than 0"

  /** The part of the database's error text that the room controller looks
      for to answer 409 on a duplicate name (the rest names the constraint). */
  const UniqueViolationMessage := "violates unique constraint"

  /** The capacity message: the offending booking's title and participant
      count, then the new capacity. */
  function CapacityMessage(title: string, participants: int, capacity: int): string {
    CapacityMessageHead(title) + IntToString(participants) + CapacityMessageTail(capacity)
  }

  function CapacityMessageHead(title: string): string {
    "Room could not be updated because booking with title '" + title + "' has more participants ("
  }

  function CapacityMessageTail(capacity: int): (s: string)
    ensures |s| >= 1 && s[0] == ')'
  {
    ") than new capacity (" + IntToString(capacity) + ")"
  }

  // ---------------------------------------------------------------------------
  // Validation

  /** The guards of the room chain, in the order the service runs them. */
  function RoomGuards(room: Room): seq<Guard> {
    [ Guard(JavaLength(room.name) > 100, NameTooLongMessage),
      Guard(room.location != "Thessaloniki" && room.location != "Cologne", LocationMessage),
      Guard(room.capacity < 0, NegativeCapacityMessage) ]
  }

  predicate RoomAdmissible(room: Room) {
    && JavaLength(room.name) <= 100
    && room.location in {"Thessaloniki", "Cologne"}
    && room.capacity >= 0
  }

  /** `checkForValidRoom`: passes exactly the admissible rooms; a failure
      carries one of the three messages. */
  function CheckForValidRoom(room: Room): (r: Check)
    ensures r == Pass <==> RoomAdmissible(room)
    ensures r.Fail? ==> r.message in {NameTooLongMessage, LocationMessage, NegativeCapacityMessage}
  {
    var guards := RoomGuards(room);
    var r := FirstFailure(guards);
    assert r.Fail? ==> exists i :: 0 <= i < |guards| && r.message == guards[i].message;
    assert (forall j :: 0 <= j < |guards| ==> !guards[j].fails) <==> RoomAdmissible(room) by {
      if RoomAdmissible(room) {
        forall j | 0 <= j < |guards| ensures !guards[j].fails {
          assert j == 0 || j == 1 || j == 2;
        }
      } else {
        assert guards[0].fails || guards[1].fails || guards[2].fails;
      }
    }
    r
  }

  /** The chain's order: a long name is reported first, then a bad location,
      then a negative capacity. */
  lemma RoomValidationOrder(room: Room)
    ensures JavaLength(room.name) > 100 ==> CheckForValidRoom(room) == Fail(NameTooLongMessage)
    ensures JavaLength(room.name) <= 100 && room.location !in {"Thessaloniki", "Cologne"}
            ==> CheckForValidRoom(room) == Fail(LocationMessage)
    ensures RoomAdmissible(Room(room.name, room.location, 0)) && room.capacity < 0
            ==> CheckForValidRoom(room) == Fail(NegativeCapacityMessage)
  {
    var guards := RoomGuards(room);
    if JavaLength(room.name) > 100 {
      FirstFailureAt(guards, 0);
    } else if room.location !in {"Thessaloniki", "Cologne"} {
      FirstFailureAt(guards, 1);
    } else if room.capacity < 0 {
      FirstFailureAt(guards, 2);
    }
  }

  /** The boundaries are inclusive: a name of Java length 100 and a capacity
      of 0 are accepted. */
  lemma RoomBoundariesAccepted(name: string, location: string)
    requires JavaLength(name) == 100 && location in {"Thessaloniki", "Cologne"}
    ensures CheckForValidRoom(Room(name, location, 0)) == Pass
  {
  }

  /** Names are measured in UTF-16 code units: 51 emoji are 102 units, so
      such a name is refused although it has only 51 characters. */
  lemma EmojiNameTooLong()
    ensures var name := seq(51, _ => '\U{1F600}');
            && |name| == 51
            && CheckForValidRoom(Room(name, "Cologne", 10)) == Fail(NameTooLongMessage)
  {
    var name := seq(51, _ => '\U{1F600}');
    SupplementaryCharsCountTwice('\U{1F600}', 51);
    RoomValidationOrder(Room(name, "Cologne", 10));
  }

  // ---------------------------------------------------------------------------
  // Capacity against existing bookings

  /** Every booking of the room has at most `capacity` participants. */
  predicate CapacityFits(roomId: int, capacity: int, bookings: map<int, Booking>) {
    forall bid :: bid in bookings && bookings[bid].roomId == roomId ==> bookings[bid].participants <= capacity
  }

  /** The loop of `updateRoomInDatabase` over the room's bookings: it stops at
      a booking with more participants than the new capacity and names it. */
  method CheckExistingBookingsFit(roomId: int, capacity: int, bookings: map<int, Booking>) returns (r: Check)
    ensures r == Pass <==> CapacityFits(roomId, capacity, bookings)
    ensures r.Fail? ==> exists bid :: bid in bookings && bookings[bid].roomId == roomId
                                      && bookings[bid].participants > capacity
                                      && r.message == CapacityMessage(bookings[bid].title, bookings[bid].participants, capacity)
  {
    var existingBookings := FindAllByRoom(bookings, roomId);
    var pending := existingBookings;
    while pending != {}
      invariant pending <= existingBookings
      invariant forall b :: b in existingBookings && b !in pending ==> bookings[b].participants <= capacity
      decreases pending
    {
      NonEmptyHasMember(pending);
      var bid :| bid in pending;
      if bookings[bid].participants > capacity {
        return Fail(CapacityMessage(bookings[bid].title, bookings[bid].participants, capacity));
      }
      pending := pending - {bid};
    }
    return Pass;
  }

  /** Different offending bookings give different messages whenever their
      participant counts differ, so the count in the message is the booking's. */
  lemma CapacityMessageNamesCount(title: string, participants: int, other: int, capacity: int)
    requires participants != other
    ensures CapacityMessage(title, participants, capacity) != CapacityMessage(title, other, capacity)
  {
    var s1 := IntToString(participants);
    var s2 := IntToString(other);
    if CapacityMessage(title, participants, capacity) == CapacityMessage(title, other, capacity) {
      DigitsThenParen(CapacityMessageHead(title), s1, s2, CapacityMessageTail(capacity));
      ParseIntToString(participants);
      ParseIntToString(other);
      assert false;
    }
  }

  /** A number written between a common prefix and a suffix that starts with a
      closing parenthesis can be read back unambiguously. */
  lemma DigitsThenParen(prefix: string, s1: string, s2: string, suffix: string)
    requires |s1| >= 1 && |s2| >= 1
    requires forall i :: 0 <= i < |s1| ==> s1[i] == '-' || IsDigit(s1[i])
    requires forall i :: 0 <= i < |s2| ==> s2[i] == '-' || IsDigit(s2[i])
    requires |suffix| >= 1 && suffix[0] == ')'
    requires prefix + s1 + suffix == prefix + s2 + suffix
    ensures s1 == s2
  {
    var m := prefix + s1 + suffix;
    assert m == prefix + s2 + suffix;
    if |s1| < |s2| {
      assert false;
    } else if |s2| < |s1| {
      assert false;
    } else {
      assert forall i :: 0 <= i < |s1| ==> s1[i] == m[|prefix| + i] == s2[i];
    }
  }

  // ---------------------------------------------------------------------------
  // The store

  /** Some room other than `self` already carries the name. */
  predicate NameInUse(rooms: map<int, Room>, name: string, self: Option<int>) {
    exists id :: id in rooms && Some(id) != self && rooms[id].name == name
  }

  /** The room table with its generated ids and its unique name column. */
  class RoomStore {
    var rooms: map<int, Room>
    var nextId: int

    ghost predicate Valid()
      reads this
    {
      && (forall id :: id in rooms ==> id < nextId)
      && UniqueNames(rooms)
      && (forall id :: id in rooms ==> RoomAdmissible(rooms[id]))
    }

    constructor ()
      ensures Valid() && rooms == map[] && nextId == 1
    {
      rooms := map[];
      nextId := 1;
    }

    /** `createRoomInDatabase`: validate, then store under a fresh id; a name
        already in use is refused by the unique column (409). */
    method CreateRoomInDatabase(room: Room) returns (r: Response)
      requires Valid()
      modifies this
      ensures Valid()
      ensures CheckForValidRoom(room).Fail? ==>
                r == BadRequest(CheckForValidRoom(room).message) && rooms == old(rooms) && nextId == old(nextId)
      ensures CheckForValidRoom(room) == Pass && NameInUse(old(rooms), room.name, None) ==>
                r == Conflict(UniqueViolationMessage) && rooms == old(rooms) && nextId == old(nextId)
      ensures CheckForValidRoom(room) == Pass && !NameInUse(old(rooms), room.name, None) ==>
                && r == Created(old(nextId))
                && old(nextId) !in old(rooms)
                && rooms == old(rooms)[old(nextId) := room]
    {
      var isValidRoom := CheckForValidRoom(room);
      if isValidRoom.Fail? {
        return BadRequest(isValidRoom.message);
      }
      if NameInUse(rooms, room.name, None) {
        return Conflict(UniqueViolationMessage);
      }
      r := Created(nextId);
      rooms := rooms[nextId := room];
      nextId := nextId + 1;
    }

    /** `updateRoomInDatabase`: an unknown id is not found; otherwise validate,
        refuse a capacity below some booking of the room, refuse a name held
        by another room, then replace name, location and capacity. */
    method UpdateRoomInDatabase(id: int, room: Room, bookings: map<int, Booking>) returns (r: Response)
      requires Valid()
      modifies this
      ensures Valid() && nextId == old(nextId)
      ensures id !in old(rooms) ==> r == NotFound && rooms == old(rooms)
      ensures id in old(rooms) && CheckForValidRoom(room).Fail? ==>
                r == BadRequest(CheckForValidRoom(room).message) && rooms == old(rooms)
      ensures id in old(rooms) && CheckForValidRoom(room) == Pass && !CapacityFits(id, room.capacity, bookings) ==>
                && rooms == old(rooms)
                && exists bid :: bid in bookings && bookings[bid].roomId == id
                                 && bookings[bid].participants > room.capacity
                                 && r == BadRequest(CapacityMessage(bookings[bid].title, bookings[bid].participants, room.capacity))
      ensures id in old(rooms) && CheckForValidRoom(room) == Pass && CapacityFits(id, room.capacity, bookings)
              && NameInUse(old(rooms), room.name, Some(id)) ==>
                r == Conflict(UniqueViolationMessage) && rooms == old(rooms)
      ensures id in old(rooms) && CheckForValidRoom(room) == Pass && CapacityFits(id, room.capacity, bookings)
              && !NameInUse(old(rooms), room.name, Some(id)) ==>
                r == Ok && rooms == old(rooms)[id := room]
    {
      if id !in rooms {
        return NotFound;
      }
      var isValidRoom := CheckForValidRoom(room);
      if isValidRoom.Fail? {
        return BadRequest(isValidRoom.message);
      }
      var fits := CheckExistingBookingsFit(id, room.capacity, bookings);
      if fits.Fail? {
        return BadRequest(fits.message);
      }
      if NameInUse(rooms, room.name, Some(id)) {
        return Conflict(UniqueViolationMessage);
      }
      rooms := rooms[id := room];
      r := Ok;
    }

    /** `deleteRoomInDatabase`: removes the room if there is one, and answers
        204 either way. */
    method DeleteRoomInDatabase(id: int) returns (r: Response)
      requires Valid()
      modifies this
      ensures Valid() && nextId == old(nextId)
      ensures r == NoContent
      ensures rooms == old(rooms) - {id}
    {
      rooms := rooms - {id};
      r := NoContent;
    }
  }
}

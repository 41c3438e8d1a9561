/** The records the services work on. Dates are day numbers, times are
    seconds since midnight; Java's nullable strings are `Option<string>`. */
module Entities {
  import opened Common

  /** A meeting room: the room entity and the room payload share this shape
      (the payload's id travels separately, as the key of the room store). */
  datatype Room = Room(name: string, location: string, capacity: int)

  /** A booking payload as clients send it: the room is named, not referenced. */
  datatype BookingDTO = BookingDTO(
    room: string,
    title: string,
    description: Option<string>,
    startDate: int,
    endDate: int,
    startTime: int,
    endTime: int,
    participants: int,
    repeatPattern: Option<string>)

  /** A stored booking: the room is referenced by its id. */
  datatype Booking = Booking(
    roomId: int,
    title: string,
    description: Option<string>,
    startDate: int,
    endDate: int,
    startTime: int,
    endTime: int,
    participants: int,
    repeatPattern: Option<string>)

  /** The payload-to-entity conversion, with the room already looked up. */
  function ToBooking(dto: BookingDTO, roomId: int): Booking {
    Booking(roomId, dto.title, dto.description, dto.startDate, dto.endDate,
            dto.startTime, dto.endTime, dto.participants, dto.repeatPattern)
  }

  /** The entity-to-payload conversion: the room is shown by its name. */
  function ToDTO(b: Booking, roomName: string): BookingDTO {
    BookingDTO(roomName, b.title, b.description, b.startDate, b.endDate,
               b.startTime, b.endTime, b.participants, b.repeatPattern)
  }

  /** The room table's unique constraint on the name column. */
  ghost predicate UniqueNames(rooms: map<int, Room>) {
    forall a, b :: a in rooms && b in rooms && rooms[a].name == rooms[b].name ==> a == b
  }
}

/** The booking service: the validation chain for a booking payload, the
    repeat-pattern rule that turns an overlap shortlist into a conflict, and
    the booking store whose create, update and delete use both. */
module BookingService {
  import opened Common
  import opened Entities
  import opened RoomRepository
  import opened BookingRepository

  const EveryDay := "every day"
  const EverySameWeekday := "every same day of the week"

  function NoSuchRoomMessage(room: string): string {
    "Meeting room with name '" + room + "' does not exist"
  }

  const TitleTooLongMessage := "Booking title cannot be more than 100 characters"
  // The unit tests expect "Booking start date cannot be after booking end date";
  // the service sends the text below.
  const StartDateMessage := "Booking start date must be before booking end date"
  const StartTimeMessage := "Booking start time must be before booking end time"
  const NegativeParticipantsMessage := "Participants cannot be less than 0"
  const OverCapacityMessage := "Number of participants in booking exceeds meeting room capacity"
  const RepeatPatternMessage := "Repeat option must either be null, 'every day', or 'every same day of the week'"
  const SingleDayMessage := "If booking does not repeat, start date should be same as end date"

  /** The body of the 409 answer when the room is taken (`meetingRoomBooked`). */
  function BookedMessage(room: string): string {
    "Meeting room with name " + room + " is already booked for the same time"
  }

  /** The repeat patterns the service understands; absent means "does not repeat". */
  predicate KnownPattern(p: Option<string>) {
    p.None? || p.value == EveryDay || p.value == EverySameWeekday
  }

  // ---------------------------------------------------------------------------
  // Validation

  /** The guards that follow the room lookup, in the order the service runs
      them. The first one measures the room name, not the title, although
      its message speaks of the title; the unit tests expect the title to
      be measured. */
  function BookingGuards(dto: BookingDTO, room: Room): seq<Guard> {
    [ Guard(JavaLength(dto.room) > 100, TitleTooLongMessage),
      Guard(dto.startDate > dto.endDate, StartDateMessage),
      Guard(dto.startTime > dto.endTime, StartTimeMessage),
      Guard(dto.participants < 0, NegativeParticipantsMessage),
      Guard(dto.participants > room.capacity, OverCapacityMessage),
      Guard(!KnownPattern(dto.repeatPattern), RepeatPatternMessage),
      Guard(dto.repeatPattern.None? && dto.startDate != dto.endDate, SingleDayMessage) ]
  }

  /** What an accepted payload satisfies, for the room it names. Equal start
      and end times are accepted, since the time guard only rejects a start
      strictly after the end. */
  predicate Admissible(dto: BookingDTO, room: Room) {
    && JavaLength(dto.room) <= 100
    && dto.startDate <= dto.endDate
    && dto.startTime <= dto.endTime
    && 0 <= dto.participants <= room.capacity
    && KnownPattern(dto.repeatPattern)
    && (dto.repeatPattern.None? ==> dto.startDate == dto.endDate)
  }

  /** The shape every stored booking has, because it passed validation. */
  predicate WellFormed(b: Booking) {
    && b.startDate <= b.endDate
    && b.startTime <= b.endTime
    && 0 <= b.participants
    && KnownPattern(b.repeatPattern)
    && (b.repeatPattern.None? ==> b.startDate == b.endDate)
  }

  /** `checkForValidBooking`: an unknown room is reported before anything
      else; otherwise the guard chain decides, and a payload passes exactly
      when it is admissible for the room it names. */
  function CheckForValidBooking(dto: BookingDTO, rooms: map<int, Room>): (r: Check)
    requires UniqueNames(rooms)
    ensures FindByName(rooms, dto.room).None? ==> r == Fail(NoSuchRoomMessage(dto.room))
    ensures r == Pass <==> FindByName(rooms, dto.room).Some? && Admissible(dto, rooms[FindByName(rooms, dto.room).value])
    ensures r == Pass ==> WellFormed(ToBooking(dto, FindByName(rooms, dto.room).value))
  {
    match FindByName(rooms, dto.room)
    case None => Fail(NoSuchRoomMessage(dto.room))
    case Some(id) =>
      var guards := BookingGuards(dto, rooms[id]);
      var r := FirstFailure(guards);
      assert r == Pass <==> forall j :: 0 <= j < |guards| ==> !guards[j].fails;
      assert (forall j :: 0 <= j < |guards| ==> !guards[j].fails) <==> Admissible(dto, rooms[id]) by {
        if Admissible(dto, rooms[id]) {
          forall j | 0 <= j < |guards| ensures !guards[j].fails {
            assert j == 0 || j == 1 || j == 2 || j == 3 || j == 4 || j == 5 || j == 6;
          }
        } else {
          assert guards[0].fails || guards[1].fails || guards[2].fails || guards[3].fails
              || guards[4].fails || guards[5].fails || guards[6].fails;
        }
      }
      r
  }

  /** The first guard after the lookup measures the room name: a found room
      whose name has Java length above 100 gets the title message, and a long
      title alone never does. */
  lemma RoomNameRule(dto: BookingDTO, rooms: map<int, Room>)
    requires UniqueNames(rooms)
    requires FindByName(rooms, dto.room).Some?
    ensures JavaLength(dto.room) > 100 ==> CheckForValidBooking(dto, rooms) == Fail(TitleTooLongMessage)
    ensures JavaLength(dto.room) <= 100 ==> CheckForValidBooking(dto, rooms) != Fail(TitleTooLongMessage)
  {
    var id := FindByName(rooms, dto.room).value;
    var guards := BookingGuards(dto, rooms[id]);
    if JavaLength(dto.room) > 100 {
      FirstFailureAt(guards, 0);
    }
  }

  /** Date and time ordering: a start date after the end date is rejected
      with the date message, and otherwise a start time after the end time
      with the time message. Equal start and end times get neither. */
  lemma OrderingRules(dto: BookingDTO, rooms: map<int, Room>)
    requires UniqueNames(rooms)
    requires FindByName(rooms, dto.room).Some? && JavaLength(dto.room) <= 100
    ensures dto.startDate > dto.endDate ==> CheckForValidBooking(dto, rooms) == Fail(StartDateMessage)
    ensures dto.startDate <= dto.endDate && dto.startTime > dto.endTime
            ==> CheckForValidBooking(dto, rooms) == Fail(StartTimeMessage)
    ensures dto.startTime == dto.endTime ==> CheckForValidBooking(dto, rooms) != Fail(StartTimeMessage)
  {
    var id := FindByName(rooms, dto.room).value;
    var guards := BookingGuards(dto, rooms[id]);
    if dto.startDate > dto.endDate {
      FirstFailureAt(guards, 1);
    } else if dto.startTime > dto.endTime {
      FirstFailureAt(guards, 2);
    }
  }

  /** Participant bounds, once the dates and times are in order: a negative
      count and a count above the capacity are rejected with their messages,
      and a count equal to the capacity passes when the repeat rules do. */
  lemma ParticipantRules(dto: BookingDTO, rooms: map<int, Room>)
    requires UniqueNames(rooms)
    requires FindByName(rooms, dto.room).Some? && JavaLength(dto.room) <= 100
    requires dto.startDate <= dto.endDate && dto.startTime <= dto.endTime
    ensures dto.participants < 0 ==> CheckForValidBooking(dto, rooms) == Fail(NegativeParticipantsMessage)
    ensures 0 <= dto.participants && dto.participants > rooms[FindByName(rooms, dto.room).value].capacity
            ==> CheckForValidBooking(dto, rooms) == Fail(OverCapacityMessage)
    ensures dto.participants == rooms[FindByName(rooms, dto.room).value].capacity >= 0
            && KnownPattern(dto.repeatPattern) && (dto.repeatPattern.None? ==> dto.startDate == dto.endDate)
            ==> CheckForValidBooking(dto, rooms) == Pass
  {
    var id := FindByName(rooms, dto.room).value;
    var guards := BookingGuards(dto, rooms[id]);
    if dto.participants < 0 {
      FirstFailureAt(guards, 3);
    } else if dto.participants > rooms[id].capacity {
      FirstFailureAt(guards, 4);
    }
  }

  /** Repeat rules, once everything before them passes: an unknown pattern is
      rejected, and so is a non-repeating booking spanning several days. */
  lemma RepeatRules(dto: BookingDTO, rooms: map<int, Room>)
    requires UniqueNames(rooms)
    requires FindByName(rooms, dto.room).Some? && JavaLength(dto.room) <= 100
    requires dto.startDate <= dto.endDate && dto.startTime <= dto.endTime
    requires 0 <= dto.participants <= rooms[FindByName(rooms, dto.room).value].capacity
    ensures !KnownPattern(dto.repeatPattern) ==> CheckForValidBooking(dto, rooms) == Fail(RepeatPatternMessage)
    ensures dto.repeatPattern.None? && dto.startDate != dto.endDate
            ==> CheckForValidBooking(dto, rooms) == Fail(SingleDayMessage)
  {
    var id := FindByName(rooms, dto.room).value;
    var guards := BookingGuards(dto, rooms[id]);
    if !KnownPattern(dto.repeatPattern) {
      FirstFailureAt(guards, 5);
    } else if dto.repeatPattern.None? && dto.startDate != dto.endDate {
      FirstFailureAt(guards, 6);
    }
  }

  // ---------------------------------------------------------------------------
  // Conflicts

  /** The weekday of a day number. The service asks a calendar in the default
      time zone; only equality of weekdays matters, which this keeps. */
  function Weekday(date: int): (w: int)
    ensures 0 <= w < 7
  {
    date % 7
  }

  /** Two dates fall on the same weekday exactly when they are a whole
      number of weeks apart. */
  lemma SameWeekdayIffWeeksApart(date: int, other: int)
    ensures Weekday(date) == Weekday(other) <==> (date - other) % 7 == 0
  {
    var q, q' := date / 7, other / 7;
    assert date == 7 * q + Weekday(date);
    assert other == 7 * q' + Weekday(other);
    assert date - other == 7 * (q - q') + (Weekday(date) - Weekday(other));
  }

  /** The repeat-pattern rule for a shortlisted pair: "every day" on either
      side collides; otherwise, if either repeats weekly, they collide when
      they start on the same weekday; two non-repeating bookings collide. */
  predicate Collide(pattern: Option<string>, startDate: int, otherPattern: Option<string>, otherStart: int) {
    if pattern == Some(EveryDay) || otherPattern == Some(EveryDay) then true
    else if pattern.Some? || otherPattern.Some? then Weekday(startDate) == Weekday(otherStart)
    else true
  }

  /** The overlap query the conflict check runs: the update variant leaves
      out the booking being updated. A room name that finds no room matches
      no stored booking. */
  function ConflictShortlist(id: int, dto: BookingDTO, isUpdate: bool,
                             bookings: map<int, Booking>, rooms: map<int, Room>): (r: set<int>)
    requires UniqueNames(rooms)
    ensures r <= bookings.Keys
    ensures isUpdate ==> id !in r
    ensures forall bid :: bid in r ==> Some(bookings[bid].roomId) == FindByName(rooms, dto.room)
    ensures FindByName(rooms, dto.room).None? ==> r == {}
    ensures FindByName(rooms, dto.room).Some? ==>
              forall bid :: bid in r <==> && bid in bookings
                                          && Overlapping(bookings[bid], FindByName(rooms, dto.room).value,
                                                         dto.startDate, dto.endDate, dto.startTime, dto.endTime)
                                          && !(isUpdate && bid == id)
  {
    match FindByName(rooms, dto.room)
    case None => {}
    case Some(roomId) =>
      if isUpdate then
        FindOverlappingBookingsUpdate(bookings, dto.startDate, dto.endDate, dto.startTime, dto.endTime, roomId, id)
      else
        FindOverlappingBookingsCreate(bookings, dto.startDate, dto.endDate, dto.startTime, dto.endTime, roomId)
  }

  /** Some shortlisted booking collides with the payload. */
  predicate HasConflict(id: int, dto: BookingDTO, isUpdate: bool,
                        bookings: map<int, Booking>, rooms: map<int, Room>)
    requires UniqueNames(rooms)
  {
    exists bid :: bid in ConflictShortlist(id, dto, isUpdate, bookings, rooms)
               && Collide(dto.repeatPattern, dto.startDate, bookings[bid].repeatPattern, bookings[bid].startDate)
  }

  /** `checkForConflictingBookings`: walks the shortlist and stops at the
      first booking the repeat-pattern rule says collides. */
  method CheckForConflictingBookings(id: int, dto: BookingDTO, isUpdate: bool,
                                     bookings: map<int, Booking>, rooms: map<int, Room>) returns (r: Check)
    requires UniqueNames(rooms)
    ensures r == (if HasConflict(id, dto, isUpdate, bookings, rooms) then Fail(BookedMessage(dto.room)) else Pass)
  {
    var overlappingBookings := ConflictShortlist(id, dto, isUpdate, bookings, rooms);
    var repeatPattern := dto.repeatPattern;
    var dayOfWeek := Weekday(dto.startDate);
    var pending := overlappingBookings;
    while pending != {}
      invariant pending <= overlappingBookings
      invariant forall b :: b in overlappingBookings && b !in pending
                  ==> !Collide(repeatPattern, dto.startDate, bookings[b].repeatPattern, bookings[b].startDate)
      decreases pending
    {
      NonEmptyHasMember(pending);
      var bid :| bid in pending;
      var otherRepeatPattern := bookings[bid].repeatPattern;
      if repeatPattern == Some(EveryDay) {
        return Fail(BookedMessage(dto.room));
      }
      if otherRepeatPattern == Some(EveryDay) {
        return Fail(BookedMessage(dto.room));
      }
      var otherDayOfWeek := Weekday(bookings[bid].startDate);
      if otherRepeatPattern.Some? || repeatPattern.Some? {
        if dayOfWeek == otherDayOfWeek {
          return Fail(BookedMessage(dto.room));
        }
      } else {
        return Fail(BookedMessage(dto.room));
      }
      pending := pending - {bid};
    }
    return Pass;
  }

  /** An empty shortlist never conflicts. */
  lemma EmptyShortlistNoConflict(id: int, dto: BookingDTO, isUpdate: bool,
                                 bookings: map<int, Booking>, rooms: map<int, Room>)
    requires UniqueNames(rooms)
    requires ConflictShortlist(id, dto, isUpdate, bookings, rooms) == {}
    ensures !HasConflict(id, dto, isUpdate, bookings, rooms)
  {
  }

  /** The rule does not depend on which booking is the candidate. */
  lemma CollideIsSymmetric(pattern: Option<string>, startDate: int, otherPattern: Option<string>, otherStart: int)
    ensures Collide(pattern, startDate, otherPattern, otherStart) <==> Collide(otherPattern, otherStart, pattern, startDate)
  {
  }

  // ---------------------------------------------------------------------------
  // What the rule means for the days on which bookings take place

  /** A booking takes place on a day inside its date range; a weekly booking
      only on the weekday it starts on. (A non-repeating well-formed booking
      has a one-day range.) */
  ghost predicate OccursOn(b: Booking, day: int) {
    InRange(day, b.startDate, b.endDate)
    && (b.repeatPattern == Some(EverySameWeekday) ==> Weekday(day) == Weekday(b.startDate))
  }

  ghost predicate SharesDay(a: Booking, b: Booking) {
    exists day :: OccursOn(a, day) && OccursOn(b, day)
  }

  /** One side repeats every day and the other weekly. */
  predicate DailyAgainstWeekly(pattern: Option<string>, otherPattern: Option<string>) {
    || (pattern == Some(EveryDay) && otherPattern == Some(EverySameWeekday))
    || (pattern == Some(EverySameWeekday) && otherPattern == Some(EveryDay))
  }

  /** The rule misses nothing: two well-formed bookings that take place on a
      common day collide. */
  lemma CollideCoversSharedDays(a: Booking, b: Booking)
    requires WellFormed(a) && WellFormed(b)
    requires SharesDay(a, b)
    ensures Collide(a.repeatPattern, a.startDate, b.repeatPattern, b.startDate)
  {
    var day :| OccursOn(a, day) && OccursOn(b, day);
    if a.repeatPattern != Some(EveryDay) && b.repeatPattern != Some(EveryDay)
       && (a.repeatPattern.Some? || b.repeatPattern.Some?) {
      if a.repeatPattern.None? {
        assert day == a.startDate;
      } else if b.repeatPattern.None? {
        assert day == b.startDate;
      }
    }
  }

  /** The rule is exact except for "every day" against weekly: two well-formed
      bookings whose date ranges overlap and that collide take place on a
      common day, the later of their start days. */
  lemma CollideIsGenuine(a: Booking, b: Booking)
    requires WellFormed(a) && WellFormed(b)
    requires DatesOverlap(a.startDate, a.endDate, b.startDate, b.endDate)
    requires Collide(a.repeatPattern, a.startDate, b.repeatPattern, b.startDate)
    requires !DailyAgainstWeekly(a.repeatPattern, b.repeatPattern)
    ensures SharesDay(a, b)
  {
    var day := if a.startDate < b.startDate then b.startDate else a.startDate;
    assert OccursOn(a, day) && OccursOn(b, day);
  }

  /** "Every day" against weekly is decided without looking at the weekday:
      a three-day daily booking collides with a weekly one although it takes
      place on none of the weekly booking's days. */
  lemma DailyAgainstWeeklyOverApproximates()
    ensures var daily := Booking(1, "daily", None, 10, 12, 0, 3600, 1, Some(EveryDay));
            var weekly := Booking(1, "weekly", None, 1, 30, 0, 3600, 1, Some(EverySameWeekday));
            && WellFormed(daily) && WellFormed(weekly)
            && DatesOverlap(daily.startDate, daily.endDate, weekly.startDate, weekly.endDate)
            && TimesOverlap(daily.startTime, daily.endTime, weekly.startTime, weekly.endTime)
            && Collide(daily.repeatPattern, daily.startDate, weekly.repeatPattern, weekly.startDate)
            && !SharesDay(daily, weekly)
  {
    var daily := Booking(1, "daily", None, 10, 12, 0, 3600, 1, Some(EveryDay));
    var weekly := Booking(1, "weekly", None, 1, 30, 0, 3600, 1, Some(EverySameWeekday));
    forall day | OccursOn(daily, day) ensures !OccursOn(weekly, day) {
      assert day == 10 || day == 11 || day == 12;
      assert Weekday(1) == 1;
    }
  }

  /** A payload that passes validation and the create-time conflict check
      shares no day and no second with any booking already in its room. */
  lemma CreateAdmitsNoDoubleBooking(dto: BookingDTO, rooms: map<int, Room>, bookings: map<int, Booking>, bid: int)
    requires UniqueNames(rooms)
    requires CheckForValidBooking(dto, rooms) == Pass
    requires !HasConflict(0, dto, false, bookings, rooms)
    requires bid in bookings && WellFormed(bookings[bid])
    requires bookings[bid].roomId == FindByName(rooms, dto.room).value
    requires TimesOverlap(dto.startTime, dto.endTime, bookings[bid].startTime, bookings[bid].endTime)
    ensures !SharesDay(ToBooking(dto, bookings[bid].roomId), bookings[bid])
  {
    var b := bookings[bid];
    var candidate := ToBooking(dto, b.roomId);
    if SharesDay(candidate, b) {
      var day :| OccursOn(candidate, day) && OccursOn(b, day);
      assert DatesOverlap(dto.startDate, dto.endDate, b.startDate, b.endDate);
      assert bid in ConflictShortlist(0, dto, false, bookings, rooms);
      CollideCoversSharedDays(candidate, b);
      assert false;
    }
  }

  /** Re-saving a booking over a slot no other booking of its room overlaps
      never conflicts, because the update query leaves the booking itself
      out; the create shortlist for the same payload holds at most that
      booking. */
  lemma UpdateOverOwnSlotNeverConflicts(id: int, dto: BookingDTO, bookings: map<int, Booking>, rooms: map<int, Room>)
    requires UniqueNames(rooms)
    requires FindByName(rooms, dto.room).Some?
    requires FindOverlappingBookingsCreate(bookings, dto.startDate, dto.endDate, dto.startTime, dto.endTime,
                                           FindByName(rooms, dto.room).value) <= {id}
    ensures ConflictShortlist(id, dto, true, bookings, rooms) == {}
    ensures !HasConflict(id, dto, true, bookings, rooms)
    ensures ConflictShortlist(id, dto, false, bookings, rooms) <= {id}
  {
  }

  /** Storing a payload under the room its name finds, and converting the
      stored booking back with that room's name, gives every field of the
      payload unchanged. */
  lemma StoredPayloadRoundTrip(dto: BookingDTO, rooms: map<int, Room>, id: int)
    requires UniqueNames(rooms) && FindByName(rooms, dto.room) == Some(id)
    ensures ToBooking(dto, id).roomId == id
    ensures ToDTO(ToBooking(dto, id), rooms[id].name) == dto
  {
  }

  // ---------------------------------------------------------------------------
  // The store

  /** The date and time fields of the payload differ from the stored ones. */
  predicate ScheduleChanged(existing: Booking, dto: BookingDTO) {
    || existing.startDate != dto.startDate
    || existing.endDate != dto.endDate
    || existing.startTime != dto.startTime
    || existing.endTime != dto.endTime
  }

  /** The booking table with its generated ids. */
  class BookingStore {
    var bookings: map<int, Booking>
    var nextId: int

    ghost predicate Valid()
      reads this
    {
      && (forall id :: id in bookings ==> id < nextId)
      && (forall id :: id in bookings ==> WellFormed(bookings[id]))
    }

    constructor ()
      ensures Valid() && bookings == map[] && nextId == 1
    {
      bookings := map[];
      nextId := 1;
    }

    /** `createBookingInDatabase`: validate, check for conflicts, then store
        under a fresh id. */
    method CreateBookingInDatabase(dto: BookingDTO, rooms: map<int, Room>) returns (r: Response)
      requires Valid() && UniqueNames(rooms)
      modifies this
      ensures Valid()
      ensures CheckForValidBooking(dto, rooms).Fail? ==>
                r == BadRequest(CheckForValidBooking(dto, rooms).message)
                && bookings == old(bookings) && nextId == old(nextId)
      ensures CheckForValidBooking(dto, rooms) == Pass && HasConflict(0, dto, false, old(bookings), rooms) ==>
                r == Conflict(BookedMessage(dto.room)) && bookings == old(bookings) && nextId == old(nextId)
      ensures CheckForValidBooking(dto, rooms) == Pass && !HasConflict(0, dto, false, old(bookings), rooms) ==>
                && r == Created(old(nextId))
                && old(nextId) !in old(bookings)
                && bookings == old(bookings)[old(nextId) := ToBooking(dto, FindByName(rooms, dto.room).value)]
      ensures r.Created? ==> && r.id in bookings && bookings[r.id].roomId in rooms
                             && ToDTO(bookings[r.id], rooms[bookings[r.id].roomId].name) == dto
    {
      var isValidBooking := CheckForValidBooking(dto, rooms);
      if isValidBooking.Fail? {
        return BadRequest(isValidBooking.message);
      }
      var hasConflictingBooking := CheckForConflictingBookings(0, dto, false, bookings, rooms);
      if hasConflictingBooking.Fail? {
        return Conflict(hasConflictingBooking.message);
      }
      var roomId := FindByName(rooms, dto.room).value;
      r := Created(nextId);
      bookings := bookings[nextId := ToBooking(dto, roomId)];
      nextId := nextId + 1;
    }

    /** `updateBookingInDatabase`: an unknown id is not found; otherwise
        validate, re-check conflicts (leaving this booking out) only when the
        dates or times change, then replace every field but the id. */
    method UpdateBookingInDatabase(id: int, dto: BookingDTO, rooms: map<int, Room>) returns (r: Response)
      requires Valid() && UniqueNames(rooms)
      modifies this
      ensures Valid() && nextId == old(nextId)
      ensures id !in old(bookings) ==> r == NotFound && bookings == old(bookings)
      ensures id in old(bookings) && CheckForValidBooking(dto, rooms).Fail? ==>
                r == BadRequest(CheckForValidBooking(dto, rooms).message) && bookings == old(bookings)
      ensures id in old(bookings) && CheckForValidBooking(dto, rooms) == Pass
              && ScheduleChanged(old(bookings)[id], dto) && HasConflict(id, dto, true, old(bookings), rooms) ==>
                r == Conflict(BookedMessage(dto.room)) && bookings == old(bookings)
      ensures id in old(bookings) && CheckForValidBooking(dto, rooms) == Pass
              && !(ScheduleChanged(old(bookings)[id], dto) && HasConflict(id, dto, true, old(bookings), rooms)) ==>
                r == Ok && bookings == old(bookings)[id := ToBooking(dto, FindByName(rooms, dto.room).value)]
      ensures r == Ok ==> && id in bookings && bookings[id].roomId in rooms
                          && ToDTO(bookings[id], rooms[bookings[id].roomId].name) == dto
    {
      if id !in bookings {
        return NotFound;
      }
      var existingBooking := bookings[id];
      var isValidBooking := CheckForValidBooking(dto, rooms);
      if isValidBooking.Fail? {
        return BadRequest(isValidBooking.message);
      }
      if ScheduleChanged(existingBooking, dto) {
        var hasConflictingBooking := CheckForConflictingBookings(id, dto, true, bookings, rooms);
        if hasConflictingBooking.Fail? {
          return Conflict(hasConflictingBooking.message);
        }
      }
      var roomId := FindByName(rooms, dto.room).value;
      bookings := bookings[id := ToBooking(dto, roomId)];
      r := Ok;
    }

    /** `deleteBookingInDatabase`: removes the booking if there is one, and
        answers 204 either way. */
    method DeleteBookingInDatabase(id: int) returns (r: Response)
      requires Valid()
      modifies this
      ensures Valid() && nextId == old(nextId)
      ensures r == NoContent
      ensures bookings == old(bookings) - {id}
    {
      bookings := bookings - {id};
      r := NoContent;
    }
  }
}

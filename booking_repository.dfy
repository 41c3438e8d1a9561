/** The booking table's queries: the overlap shortlists used by the conflict
    check, and the bookings of one room. Each query is a filter over the
    stored bookings and answers a set of ids (the queries are DISTINCT and
    unordered). */
module BookingRepository {
  import opened Entities

  /** The time axis test: strict on both ends, so back-to-back slots do not
      overlap. The candidate's slot comes first. */
  predicate TimesOverlap(startTime: int, endTime: int, otherStart: int, otherEnd: int) {
    endTime > otherStart && startTime < otherEnd
  }

  /** The date axis test: inclusive on both ends, so sharing one day overlaps. */
  predicate DatesOverlap(startDate: int, endDate: int, otherStart: int, otherEnd: int) {
    endDate >= otherStart && startDate <= otherEnd
  }

  /** The WHERE clause of the create query for one stored booking b. */
  predicate Overlapping(b: Booking, roomId: int, startDate: int, endDate: int, startTime: int, endTime: int) {
    && roomId == b.roomId
    && TimesOverlap(startTime, endTime, b.startTime, b.endTime)
    && DatesOverlap(startDate, endDate, b.startDate, b.endDate)
  }

  /** `findOverlappingBookingsCreate`. */
  function FindOverlappingBookingsCreate(bookings: map<int, Booking>, startDate: int, endDate: int,
                                         startTime: int, endTime: int, roomId: int): (r: set<int>)
    ensures r <= bookings.Keys
    ensures forall id :: id in r ==> bookings[id].roomId == roomId
    ensures forall id :: id in r <==> id in bookings && Overlapping(bookings[id], roomId, startDate, endDate, startTime, endTime)
  {
    set id | id in bookings && Overlapping(bookings[id], roomId, startDate, endDate, startTime, endTime)
  }

  /** `findOverlappingBookingsUpdate`: the create query with one id left out. */
  function FindOverlappingBookingsUpdate(bookings: map<int, Booking>, startDate: int, endDate: int,
                                         startTime: int, endTime: int, roomId: int, excludeId: int): (r: set<int>)
    ensures r == FindOverlappingBookingsCreate(bookings, startDate, endDate, startTime, endTime, roomId) - {excludeId}
    ensures excludeId !in r
  {
    set id | id in bookings && Overlapping(bookings[id], roomId, startDate, endDate, startTime, endTime) && excludeId != id
  }

  /** `findAllByRoom`. */
  function FindAllByRoom(bookings: map<int, Booking>, roomId: int): (r: set<int>)
    ensures forall id :: id in r <==> id in bookings && bookings[id].roomId == roomId
  {
    set id | id in bookings && bookings[id].roomId == roomId
  }

  /** Both overlap shortlists are drawn from the room's bookings, the update
      one from the create one. */
  lemma ShortlistsWithinTheRoom(bookings: map<int, Booking>, startDate: int, endDate: int,
                                startTime: int, endTime: int, roomId: int, excludeId: int)
    ensures FindOverlappingBookingsUpdate(bookings, startDate, endDate, startTime, endTime, roomId, excludeId)
            <= FindOverlappingBookingsCreate(bookings, startDate, endDate, startTime, endTime, roomId)
            <= FindAllByRoom(bookings, roomId)
  {
  }

  /** Second t lies in the half-open slot [start, end). */
  predicate InSlot(t: int, start: int, end: int) {
    start <= t < end
  }

  /** Day d lies in the closed range [start, end]. */
  predicate InRange(d: int, start: int, end: int) {
    start <= d <= end
  }

  /** For two non-empty slots, the time test holds exactly when they share a
      second. */
  lemma TimesOverlapIffSharedInstant(startTime: int, endTime: int, otherStart: int, otherEnd: int)
    requires startTime < endTime && otherStart < otherEnd
    ensures TimesOverlap(startTime, endTime, otherStart, otherEnd)
            <==> exists t :: InSlot(t, startTime, endTime) && InSlot(t, otherStart, otherEnd)
  {
    if TimesOverlap(startTime, endTime, otherStart, otherEnd) {
      var t := if startTime < otherStart then otherStart else startTime;
      assert InSlot(t, startTime, endTime) && InSlot(t, otherStart, otherEnd);
    }
  }

  /** A slot whose start equals its end holds no second, yet the strict test
      still finds it overlapping any slot that strictly surrounds it. */
  lemma EmptySlotStillOverlaps(time: int, otherStart: int, otherEnd: int)
    requires otherStart < time < otherEnd
    ensures TimesOverlap(time, time, otherStart, otherEnd)
    ensures !exists t :: InSlot(t, time, time)
  {
  }

  /** For two ordered date ranges, the date test holds exactly when they share
      a day. */
  lemma DatesOverlapIffSharedDay(startDate: int, endDate: int, otherStart: int, otherEnd: int)
    requires startDate <= endDate && otherStart <= otherEnd
    ensures DatesOverlap(startDate, endDate, otherStart, otherEnd)
            <==> exists d :: InRange(d, startDate, endDate) && InRange(d, otherStart, otherEnd)
  {
    if DatesOverlap(startDate, endDate, otherStart, otherEnd) {
      var d := if startDate < otherStart then otherStart else startDate;
      assert InRange(d, startDate, endDate) && InRange(d, otherStart, otherEnd);
    }
  }

  /** Neither axis cares which booking is the candidate. */
  lemma OverlappingIsSymmetric(a: Booking, b: Booking)
    ensures Overlapping(b, a.roomId, a.startDate, a.endDate, a.startTime, a.endTime)
        <==> Overlapping(a, b.roomId, b.startDate, b.endDate, b.startTime, b.endTime)
  {
  }

  /** A stored booking that ends exactly when the candidate starts, or starts
      exactly when it ends, is not shortlisted. */
  lemma BackToBackNotShortlisted(bookings: map<int, Booking>, id: int, startDate: int, endDate: int,
                                 startTime: int, endTime: int, roomId: int)
    requires id in bookings
    requires bookings[id].endTime == startTime || bookings[id].startTime == endTime
    ensures id !in FindOverlappingBookingsCreate(bookings, startDate, endDate, startTime, endTime, roomId)
  {
  }

  /** A stored booking in the room whose slot overlaps the candidate's and whose
      last day is the candidate's first day is shortlisted. */
  lemma SharedBoundaryDayShortlisted(bookings: map<int, Booking>, id: int, startDate: int, endDate: int,
                                     startTime: int, endTime: int, roomId: int)
    requires id in bookings && bookings[id].roomId == roomId
    requires bookings[id].endDate == startDate && bookings[id].startDate <= startDate <= endDate
    requires TimesOverlap(startTime, endTime, bookings[id].startTime, bookings[id].endTime)
    ensures id in FindOverlappingBookingsCreate(bookings, startDate, endDate, startTime, endTime, roomId)
  {
  }
}

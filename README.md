# Bookme rules in Dafny

Bookme is a meeting-room booking service. Clients create, update and delete
rooms and bookings. This project models the rules the services apply and the
state they change:

- **Booking validation** (`BookingService.checkForValidBooking`): an ordered
  chain of guards. The first failing guard's message is the answer.
- **Overlap shortlist** (the two queries of `BookingRepository`): a booking in
  the same room whose time slot overlaps strictly and whose date range
  overlaps inclusively. The update query leaves one id out.
- **Conflict resolution** (`checkForConflictingBookings`): a loop over the
  shortlist that applies the repeat-pattern rule.
- **Booking store**: a class holding the stored bookings and the next
  generated id, with create, update and delete.
- **Room rules and room store** (`RoomService`): the room guard chain, the
  loop checking that a new capacity still fits the room's bookings, and the
  unique name column, which answers 409 Conflict.
- **Authority derivation** (`CustomUserDetailsService.loadUserByUsername`).

How values are represented:

- Dates are day numbers and times are seconds since midnight.
- The weekday of a date is `date % 7`. Only equality of weekdays matters.
- Java's nullable strings (the repeat pattern, the description) are
  `Option<string>`.
- Rooms are stored by id. Bookings refer to their room by id.
- Name lengths are Java lengths (`JavaLength`): UTF-16 code units, so a
  character outside the Basic Multilingual Plane counts as two.
- Query results are sets of booking ids, because the queries are `DISTINCT`
  and unordered.

Messages and conversions are defined once, next to the rule that uses them:

- `BookingService.BookedMessage` is the 409 body of `meetingRoomBooked`
  (`BookingService.java:81-86`).
- `Entities.ToBooking` and `Entities.ToDTO` are the two conversions at
  `BookingService.java:94-105`. The room is looked up by name on the way in
  and shown by name on the way out.
- `RoomService.CapacityMessage` is the capacity message at
  `RoomService.java:65-67`. `Decimal.IntToString` renders its numbers the
  way `Integer.toString` does.

Beyond the rules themselves, the model proves the following:

- The repeat rule never misses a day two bookings share (`CollideCoversSharedDays`).
- Apart from one case, the rule reports only real shared days. The exception
  is "every day" against weekly, which always collides; a concrete pair of
  bookings shows it (`DailyAgainstWeeklyOverApproximates`).
- A booking admitted by create takes place on no day on which another
  booking of its room with an overlapping time slot takes place
  (`CreateAdmitsNoDoubleBooking`). Bookings on other days at the same hours
  are admitted.

Where the code and its tests disagree, the model follows the code:

- `BookingService.java:114` measures the length of the room name, but
  reports the title message. The title length is never checked.
- The start-date message is "Booking start date must be before booking end
  date". The unit test expects "... cannot be after ...".
- A start time equal to the end time passes validation, because the code
  tests `after`.
- Neither service has the null checks the tests expect. Dafny values are
  never null.

## Model

| member | source | states |
|---|---|---|
| Common.FirstFailure | src/main/java/com/onelity/bookme/service/BookingService.java:107-145 | a chain of early returns passes exactly when no guard fails; otherwise its message is that of a failing guard all of whose predecessors pass |
| Common.FirstFailureAt | src/main/java/com/onelity/bookme/service/RoomService.java:74-87 | the first failing guard decides the message, whatever the later guards say |
| Decimal.ParseIntToString | src/main/java/com/onelity/bookme/service/RoomService.java:66-67 | the decimal rendering of an integer (as `Integer.toString` writes it into the capacity message) reads back as that integer |
| Common.JavaLength | src/main/java/com/onelity/bookme/service/RoomService.java:75 | the length `String.length()` reports lies between the number of characters and twice it, and equals it when every character is in the Basic Multilingual Plane |
| Common.SupplementaryCharsCountTwice | src/main/java/com/onelity/bookme/service/BookingService.java:114 | n characters from outside the Basic Multilingual Plane have Java length 2n |
| Decimal.IntToString | src/main/java/com/onelity/bookme/service/RoomService.java:66-67 | the rendering is non-empty, starts with '-' exactly for negative numbers, has only digits after the first character, and has no leading zero (a lone "0" for zero) |
| RoomRepository.FindByName | src/main/java/com/onelity/bookme/repository/RoomRepository.java:12 | a found id names a stored room with that name; nothing is found exactly when no room has the name |
| RoomRepository.FindByNameFindsTheRoom | src/main/java/com/onelity/bookme/model/Room.java:17-18 | with unique names, looking up a stored room's name finds that room |
| BookingRepository.FindOverlappingBookingsCreate | src/main/java/com/onelity/bookme/repository/BookingRepository.java:19-24 | an id is in the result exactly when it is stored, in the candidate's room, and passes the strict time test and the inclusive date test |
| BookingRepository.FindOverlappingBookingsUpdate | src/main/java/com/onelity/bookme/repository/BookingRepository.java:26-32 | the update query answers the create query's result minus the excluded id |
| BookingRepository.ShortlistsWithinTheRoom | src/main/java/com/onelity/bookme/repository/BookingRepository.java:17-32 | the update shortlist lies within the create shortlist, which lies within the room's bookings as `findAllByRoom` answers them |
| BookingRepository.TimesOverlapIffSharedInstant | src/main/java/com/onelity/bookme/repository/BookingRepository.java:20 | for two non-empty slots the strict time test holds exactly when they share a second |
| BookingRepository.EmptySlotStillOverlaps | src/main/java/com/onelity/bookme/repository/BookingRepository.java:20 | a slot with equal start and end holds no second, yet overlaps any slot strictly around it |
| BookingRepository.DatesOverlapIffSharedDay | src/main/java/com/onelity/bookme/repository/BookingRepository.java:21 | for two ordered date ranges the inclusive date test holds exactly when they share a day |
| BookingRepository.OverlappingIsSymmetric | src/main/java/com/onelity/bookme/repository/BookingRepository.java:19-21 | the overlap test gives the same answer with candidate and stored booking swapped |
| BookingRepository.BackToBackNotShortlisted | src/main/java/com/onelity/bookme/repository/BookingRepository.java:20 | a stored booking ending when the candidate starts, or starting when it ends, is not shortlisted |
| BookingRepository.SharedBoundaryDayShortlisted | src/main/java/com/onelity/bookme/repository/BookingRepository.java:21 | a booking in the room with an overlapping slot whose last day is the candidate's first day is shortlisted |
| BookingService.CheckForValidBooking | src/main/java/com/onelity/bookme/service/BookingService.java:107-145 | an unknown room is rejected with "Meeting room with name '<room>' does not exist"; the payload passes exactly when the room exists and every rule holds; a passing payload becomes a well-formed booking |
| BookingService.RoomNameRule | src/main/java/com/onelity/bookme/service/BookingService.java:113-116 | once the room is found, a room name of Java length above 100 gets the title message, and with a shorter room name that message never comes, however long the title |
| BookingService.OrderingRules | src/main/java/com/onelity/bookme/service/BookingService.java:117-124 | a start date after the end date gets the date message; with ordered dates, a start time after the end time gets the time message; equal start and end times are never rejected with it |
| BookingService.ParticipantRules | src/main/java/com/onelity/bookme/service/BookingService.java:125-131 | negative participants and participants above the capacity get their messages; participants equal to the capacity pass when the repeat rules hold |
| BookingService.RepeatRules | src/main/java/com/onelity/bookme/service/BookingService.java:132-142 | a pattern other than none, "every day" or "every same day of the week" is rejected; no pattern with different start and end dates is rejected |
| BookingService.Weekday | src/main/java/com/onelity/bookme/service/BookingService.java:162-177 | a date's weekday is one of seven values |
| BookingService.SameWeekdayIffWeeksApart | src/main/java/com/onelity/bookme/service/BookingService.java:162-179 | two dates get the same weekday exactly when they are a whole number of weeks apart |
| BookingService.ConflictShortlist | src/main/java/com/onelity/bookme/service/BookingService.java:149-161 | an unknown room shortlists nothing; otherwise a booking is shortlisted exactly when it is stored, is in the payload's room and passes the time and date tests, leaving out the booking's own id on update |
| BookingService.CheckForConflictingBookings | src/main/java/com/onelity/bookme/service/BookingService.java:148-190 | the loop answers "Meeting room with name <room> is already booked for the same time" exactly when some shortlisted booking collides under the repeat rule, and passes otherwise |
| BookingService.EmptyShortlistNoConflict | src/main/java/com/onelity/bookme/service/BookingService.java:165-189 | an empty shortlist means no conflict |
| BookingService.CollideIsSymmetric | src/main/java/com/onelity/bookme/service/BookingService.java:168-186 | the repeat rule gives the same answer with the two bookings swapped |
| BookingService.CollideCoversSharedDays | src/main/java/com/onelity/bookme/service/BookingService.java:166-186 | two well-formed bookings that take place on a common day collide under the rule |
| BookingService.CollideIsGenuine | src/main/java/com/onelity/bookme/service/BookingService.java:175-182 | apart from daily against weekly, colliding well-formed bookings with overlapping dates take place on a common day |
| BookingService.DailyAgainstWeeklyOverApproximates | src/main/java/com/onelity/bookme/service/BookingService.java:168-174 | a daily booking and a weekly booking collide although they share no day |
| BookingService.CreateAdmitsNoDoubleBooking | src/main/java/com/onelity/bookme/service/BookingService.java:41-53 | a payload admitted by create shares no day with any stored booking of its room whose slot overlaps its own |
| BookingService.UpdateOverOwnSlotNeverConflicts | src/main/java/com/onelity/bookme/service/BookingService.java:147-161 | when no other booking of the room overlaps, the update shortlist is empty and nothing conflicts, while the create shortlist for the same payload holds at most the booking itself |
| BookingService.StoredPayloadRoundTrip | src/main/java/com/onelity/bookme/service/BookingService.java:94-105 | storing a payload under the room its name finds and converting it back with that room's name gives every field unchanged |
| BookingService.BookingStore.CreateBookingInDatabase | src/main/java/com/onelity/bookme/service/BookingService.java:41-53 | an invalid payload gets 400 with its message and a conflicting one gets 409, both leaving the store unchanged; otherwise the payload is stored under a fresh id, which is answered with 201, and converting the stored booking back gives the payload |
| BookingService.BookingStore.UpdateBookingInDatabase | src/main/java/com/onelity/bookme/service/BookingService.java:60-79 | an unknown id is not found; an invalid payload gets 400; conflicts are checked, leaving the booking out, only when a date or time changed; success replaces every field but the id, and the stored booking converts back to the payload; failures change nothing |
| BookingService.BookingStore.DeleteBookingInDatabase | src/main/java/com/onelity/bookme/service/BookingService.java:55-58 | the id is removed if present and the answer is 204 either way |
| RoomService.CheckForValidRoom | src/main/java/com/onelity/bookme/service/RoomService.java:74-87 | a room passes exactly when its name has Java length at most 100, its location is Thessaloniki or Cologne and its capacity is not negative; a failure carries one of the three messages |
| RoomService.RoomValidationOrder | src/main/java/com/onelity/bookme/service/RoomService.java:74-84 | a name of Java length above 100 is reported first, then a bad location, then a negative capacity |
| RoomService.RoomBoundariesAccepted | src/main/java/com/onelity/bookme/service/RoomService.java:75-83 | a name of Java length 100 and a capacity of 0 are accepted |
| RoomService.EmojiNameTooLong | src/main/java/com/onelity/bookme/service/RoomService.java:75-76 | a name of 51 emoji has 102 UTF-16 units and is refused with the name message, although it has only 51 characters |
| RoomService.CheckExistingBookingsFit | src/main/java/com/onelity/bookme/service/RoomService.java:62-69 | the loop passes exactly when every booking of the room has at most the new capacity of participants, and otherwise names an offending booking's title and count and the capacity in its message |
| RoomService.CapacityMessageNamesCount | src/main/java/com/onelity/bookme/service/RoomService.java:65-67 | different participant counts give different messages, so the count in the message is the offending booking's |
| RoomService.RoomStore.CreateRoomInDatabase | src/main/java/com/onelity/bookme/service/RoomService.java:42-49 | an invalid room gets 400 and a name already in use gets 409, both leaving the store unchanged; otherwise the room is stored under a fresh id, which is answered with 201; names stay unique |
| RoomService.RoomStore.UpdateRoomInDatabase | src/main/java/com/onelity/bookme/service/RoomService.java:56-72 | an unknown id is not found; then come validation, the capacity loop and the unique name (409), each leaving the store unchanged; success replaces name, location and capacity under the same id |
| RoomService.RoomStore.DeleteRoomInDatabase | src/main/java/com/onelity/bookme/service/RoomService.java:51-54 | the id is removed if present and the answer is 204 either way |
| UserDetailsService.LoadUserByUsername | src/main/java/com/onelity/bookme/service/CustomUserDetailsService.java:30-44 | an unknown name gives the not-found error, and a stored name is always loaded; then the stored user is returned unchanged with ROLE_EMPLOYEE, plus ROLE_ADMIN exactly when the stored role is "ROLE_ADMIN", so one or two authorities |

## Left out

- Controllers, routing and the mapping from exceptions to status codes. The store methods return the status directly. The unique-name rule (409) is kept.
- Spring configuration, BCrypt, HTTP Basic and the application entry point: framework wiring.
- JPA persistence, `saveAndFlush`, ModelMapper and `BeanUtils.copyProperties`. They become map updates and record construction.
- BookingService.BookingStore.UpdateBookingInDatabase: answers NotFound before validating, in line order. `getReferenceById` returns a lazy reference that fails only when first read, after validation. So for a missing id the service itself answers 400 to an invalid payload.
- RoomService.RoomStore.UpdateRoomInDatabase: answers NotFound before validating, for the same reason as booking update.
- BookingService.BookingStore.UpdateBookingInDatabase: there is no "the store is conflict-free" invariant. The test for a changed schedule ignores the room, so moving a booking to another room skips the conflict check.
- BookingService.BookingStore.CreateBookingInDatabase: ignores the id carried in the payload and uses a fresh generated id.
- The database's full unique-violation text is not modelled. Only the phrase the controller looks for is kept, "violates unique constraint".
- RoomService.RoomStore.DeleteRoomInDatabase: does not model the foreign key from bookings to rooms. Deleting a room that still has bookings is modelled as a plain removal.
- `java.util.Calendar` and the default time zone are replaced by `date % 7`.
- Booking authorization (creator or admin) is not modelled. The booking service shown stores no creator and performs no such check.
- The check-then-save race between the conflict query and the save is not modelled. The model is sequential.
- Java nulls are not modelled, so the missing null checks cannot be reached.
- The read and list operations are not modelled (`getBookingFromDatabase`, `getAllBookingsFromDatabase`, `getRoomFromDatabase`, `getAllRoomsFromDatabase`). They change nothing and only convert records.
- Integer overflow is not modelled. Ids, participants and capacities are unbounded integers, where the source uses `Long` and `Integer`.
- UserDetailsService.java is a thin repository lookup and is not part of this model. The user table is a map from username to user.
- Password handling is not modelled. The password is carried unchanged and never checked.

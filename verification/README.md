# Room reservation: entity and reservation rules

A model of a small teaching program about exceptions, built around a hotel
room reservation. The `Reservation` entity holds a room number and a
check-in/check-out pair of dates, computes the number of nights booked and
lets its dates be overwritten. The entity validates nothing. The business
rules live in the command-line driver. A reservation is created only when
check-out is strictly after check-in. A date update is rejected when either
new date lies before today. Otherwise it is rejected when check-out is not
after check-in. Otherwise it is applied.

Dates are integer epoch days (days since 1970-01-01). So `isAfter` is `>`,
`isBefore` is `<`, and `toEpochDay` is the identity. The reservation is an
immutable datatype, and each mutator returns the updated value. The driver's
clock read becomes a parameter `now`. Its two error messages become the
verdicts `PastDate` and `InvalidRange` of a tagged result.

Files:
- `entities.dfy`, module `Entities`: the `Reservation` datatype and its
  operations (`Duration`, `UpdateDates`, `SetRoomNumber`). It also has
  `Nights`, the set of days a reservation occupies, which is an independent
  reference for what `Duration` counts.
- `rules.dfy`, module `Rules`: the driver's guards (`CreationVerdict`,
  `UpdateVerdict`), the guarded operations (`TryCreate`, `TryUpdate`), the
  driver's whole run (`Session`), and `ApplyUpdates`. The driver submits a
  single date change, which is `TryUpdate`. `ApplyUpdates` is a
  generalisation that sends any number of date changes through the same
  guard, so the validity invariant can be stated for every reservation
  reachable through the guarded paths. With one request it is exactly
  `TryUpdate` (`SingleRequestIsTryUpdate`).

The program declares `DomainException`
(`src/model/exceptions/DomainException.java`) for broken business rules, but
nothing throws it. The constructor and `updateDates` just assign
(`src/model/entities/Reservation.java`, lines 17-21 and 43-46). The checks
live only in `src/application/Main.java`, lines 90-111. This model follows the
code: `Entities` accepts any pair of dates (`ConstructorAcceptsAnyPair`,
`UpdateDatesAcceptsAnyPair`), and the rules are in `Rules`.

## Model

| member | source | states |
|---|---|---|
| Entities.Duration | src/model/entities/Reservation.java:39-41 | adding the duration to check-in gives check-out; it is positive exactly when check-out is after check-in, zero exactly for equal dates, negative exactly for reversed dates |
| Entities.DurationCountsNights | src/model/entities/Reservation.java:39-41 | for ordered or equal dates the duration is the number of nights occupied, the size of the set of days from check-in up to check-out; a reversed reservation occupies no night and has negative duration |
| Entities.ValidIffPositiveDuration | src/model/entities/Reservation.java:39-41 | a reservation has check-out after check-in exactly when its duration is at least one night |
| Entities.UpdateDates | src/model/entities/Reservation.java:43-46 | after the update check-in and check-out are the given dates, the room is unchanged, and the duration is the difference of the new dates |
| Entities.UpdateDatesSetsBoth | src/model/entities/Reservation.java:43-46 | the updated reservation is the one with the same room and exactly the two new dates |
| Entities.UpdateDatesIdempotent | src/model/entities/Reservation.java:43-46 | updating twice with the same dates equals updating once |
| Entities.UpdateDatesLastWins | src/model/entities/Reservation.java:43-46 | of two successive updates the second decides the result, whatever the first set |
| Entities.ConstructorAcceptsAnyPair | src/model/entities/Reservation.java:17-21 | the constructor accepts an equal or reversed pair, and the reservation it builds is invalid with a non-positive duration |
| Entities.UpdateDatesAcceptsAnyPair | src/model/entities/Reservation.java:43-46 | the date update stores an equal or reversed pair as given, and the result is invalid with a non-positive duration |
| Entities.SetRoomNumber | src/model/entities/Reservation.java:27-29 | only the room number changes; both dates, the duration and validity are kept |
| Entities.SetRoomNumberKeepsNights | src/model/entities/Reservation.java:27-29 | changing the room keeps the set of nights booked and is the reservation with the new room and the old dates |
| Rules.CreationVerdict | src/application/Main.java:90-93 | creation is accepted exactly when check-out is strictly after check-in, otherwise it is refused with the range error; it never reports a past date |
| Rules.TryCreate | src/application/Main.java:90-93 | a reservation is produced exactly when the creation guard accepts, it carries the given room and dates, and it is valid with at least one night |
| Rules.EqualDatesRejected | src/application/Main.java:90-91 | equal check-in and check-out dates are refused with the range error on creation and are never accepted on update |
| Rules.ErrorMessage | src/application/Main.java:91-108 | every rejection message begins with the "Error in reservation: " prefix and says more than the prefix |
| Rules.ErrorMessagesDistinct | src/application/Main.java:105-108 | the past-date and the range rejections print different messages |
| Rules.UpdateVerdict | src/application/Main.java:103-108 | the past-date error is reported exactly when a date is strictly before now; the range error exactly when neither date is before now and check-out is not after check-in; the update is accepted exactly when now is at most check-in and check-in is before check-out |
| Rules.PastDateTakesPrecedence | src/application/Main.java:105-108 | when a date is in the past and the range is also reversed, the past-date error is the one reported |
| Rules.TryUpdate | src/application/Main.java:105-111 | the dates are overwritten when the guard accepts; on any rejection the reservation is unchanged; the room is always kept, and a valid reservation stays valid |
| Rules.Session | src/application/Main.java:90-112 | a reservation exists at the end exactly when the first dates were ordered; it is then valid for the given room, and it holds the new dates exactly when the update guard accepted them, otherwise the first dates |
| Rules.ApplyUpdates | src/application/Main.java:105-111 | a generalisation of the single guarded update to a sequence of requests: the room is kept, a valid reservation stays valid, and the final dates are those of the last request the guard accepts, or the original dates when it accepts none |
| Rules.SingleRequestIsTryUpdate | src/application/Main.java:97-111 | with the one request the driver makes, the repeated update is exactly one guarded update |
| Rules.GuardedReservationsValid | src/application/Main.java:90-111 | every reservation created through the creation guard and moved by any number of guarded updates has check-out after check-in and a duration of at least one night |
| Rules.RejectedUpdatesChangeNothing | src/application/Main.java:105-108 | when the guard rejects every request the reservation is exactly as before |
| Rules.AcceptedUpdateOverrides | src/application/Main.java:109-110 | an accepted request fixes the dates to its own, whatever earlier requests did, and keeps the room |
| Rules.Room101Example | src/application/Main.java:90-94 | room 101 from 2030-01-10 to 2030-01-15 is created and lasts five nights; the reversed pair is refused with the range error |

## Left out

- Console input and output: the `Scanner` reads, the prints and closing the scanner in `src/application/Main.java`. The verdicts and `ErrorMessage` stand for what is printed.
- Parsing and formatting dates with the pattern `dd/MM/yyyy`, in the driver and in `toString`. These are library calls. Dates are epoch days, and the nights count that `toString` prints is `Duration`.
- The system clock read `LocalDate.now()`. It is the parameter `now`.
- The no-argument constructor, which leaves the dates null. Null state is not modelled, and neither is a null `Integer` room number.
- `src/model/exceptions/DomainException.java`: nothing throws it. The error kinds are the `Verdict` datatype.
- `src/Main.java`: a demonstration of array-index and input exceptions and of file reading, with no reservation logic.
- The commented-out methods at the end of `src/application/Main.java`.
- Entities.Duration: the result is an unbounded integer rather than a 64-bit `long`. `LocalDate` epoch days stay within about ±3.7·10^11, so their difference cannot overflow a `long`. The finite `LocalDate` range itself is not modelled.
- The 32-bit width of the room number: no arithmetic is done on it.

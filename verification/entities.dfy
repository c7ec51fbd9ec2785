/** The room-reservation entity.

    Calendar dates are represented by their epoch day (days since
    1970-01-01), so a date comparison `a.isAfter(b)` is `a > b`,
    `a.isBefore(b)` is `a < b`, and `toEpochDay` is the identity.
    The entity is an immutable value: each mutator returns the updated
    reservation instead of changing an object in place.
 */
module Entities {

  type EpochDay = int

  /** A booking of one room for the nights from `checkIn` up to, but not
      including, `checkOut`. The entity itself accepts any pair of dates. */
  datatype Reservation = Reservation(roomNumber: int, checkIn: EpochDay, checkOut: EpochDay)

  /** The invariant the reservation rules of the driver establish:
      check-out strictly after check-in. */
  predicate Valid(r: Reservation) {
    r.checkOut > r.checkIn
  }

  /** Number of nights booked: the check-out epoch day minus the check-in
      epoch day. Moving `d` days on from check-in lands on check-out; the
      count is positive exactly for ordered dates and zero for equal ones. */
  function Duration(r: Reservation): (d: int)
    ensures r.checkIn + d == r.checkOut
    ensures d > 0 <==> r.checkOut > r.checkIn
    ensures d == 0 <==> r.checkOut == r.checkIn
    ensures d < 0 <==> r.checkOut < r.checkIn
  {
    r.checkOut - r.checkIn
  }

  /** Replaces both dates, whatever they are; the room is kept. */
  function UpdateDates(r: Reservation, checkIn: EpochDay, checkOut: EpochDay): (r': Reservation)
    ensures r'.checkIn == checkIn && r'.checkOut == checkOut
    ensures r'.roomNumber == r.roomNumber
    ensures Duration(r') == checkOut - checkIn
  {
    r.(checkIn := checkIn, checkOut := checkOut)
  }

  /** Replaces the room number; the dates, and hence the duration, are kept. */
  function SetRoomNumber(r: Reservation, roomNumber: int): (r': Reservation)
    ensures r'.roomNumber == roomNumber
    ensures r'.checkIn == r.checkIn && r'.checkOut == r.checkOut
    ensures Duration(r') == Duration(r)
    ensures Valid(r') <==> Valid(r)
  {
    r.(roomNumber := roomNumber)
  }

  /** The nights a reservation occupies, as a set of epoch days. This is an
      independent description of what `Duration` counts. */
  function Nights(r: Reservation): (s: set<EpochDay>)
    ensures forall d :: d in s <==> r.checkIn <= d < r.checkOut
  {
    DayRange(r.checkIn, r.checkOut)
  }

  /** The days from `lo` up to, but not including, `hi`. */
  function DayRange(lo: int, hi: int): (s: set<int>)
    ensures forall d :: d in s <==> lo <= d < hi
    decreases hi - lo
  {
    if hi <= lo then {} else DayRange(lo, hi - 1) + {hi - 1}
  }

  lemma {:induction false} DayRangeSize(lo: int, hi: int)
    requires lo <= hi
    ensures |DayRange(lo, hi)| == hi - lo
    decreases hi - lo
  {
    if lo < hi {
      DayRangeSize(lo, hi - 1);
      assert hi - 1 !in DayRange(lo, hi - 1);
    }
  }

  /** `Duration` is the number of nights the reservation occupies whenever
      check-out is not before check-in; a reversed reservation occupies no
      night and has a negative duration. */
  lemma DurationCountsNights(r: Reservation)
    ensures r.checkIn <= r.checkOut ==> Duration(r) == |Nights(r)|
    ensures r.checkOut < r.checkIn ==> Nights(r) == {} && Duration(r) < 0
  {
    if r.checkIn <= r.checkOut {
      DayRangeSize(r.checkIn, r.checkOut);
    }
  }

  /** A valid reservation is exactly one whose duration is at least one night. */
  lemma ValidIffPositiveDuration(r: Reservation)
    ensures Valid(r) <==> Duration(r) >= 1
  {
  }

  /** After `UpdateDates(a, b)` the reservation holds exactly `a` and `b`,
      and its room is unchanged. */
  lemma UpdateDatesSetsBoth(r: Reservation, a: EpochDay, b: EpochDay)
    ensures UpdateDates(r, a, b) == Reservation(r.roomNumber, a, b)
  {
  }

  /** Updating twice with the same dates is the same as updating once. */
  lemma UpdateDatesIdempotent(r: Reservation, a: EpochDay, b: EpochDay)
    ensures UpdateDates(UpdateDates(r, a, b), a, b) == UpdateDates(r, a, b)
  {
  }

  /** Of two updates, the last one wins whatever the first one set. */
  lemma UpdateDatesLastWins(r: Reservation, a: EpochDay, b: EpochDay, c: EpochDay, d: EpochDay)
    ensures UpdateDates(UpdateDates(r, a, b), c, d) == UpdateDates(r, c, d)
  {
  }

  /** The constructor performs no validation: it accepts a reversed or
      empty date pair, and the reservation it builds is not valid and has a
      non-positive duration. */
  lemma ConstructorAcceptsAnyPair(room: int, a: EpochDay, b: EpochDay)
    requires b <= a
    ensures !Valid(Reservation(room, a, b)) && Duration(Reservation(room, a, b)) <= 0
  {
  }

  /** `UpdateDates` performs no validation either: a reversed or empty pair
      is stored as given, leaving an invalid reservation with a non-positive
      duration. */
  lemma UpdateDatesAcceptsAnyPair(r: Reservation, a: EpochDay, b: EpochDay)
    requires b <= a
    ensures UpdateDates(r, a, b).checkIn == a && UpdateDates(r, a, b).checkOut == b
    ensures !Valid(UpdateDates(r, a, b)) && Duration(UpdateDates(r, a, b)) <= 0
  {
  }

  /** Changing the room number touches neither date nor the nights booked. */
  lemma SetRoomNumberKeepsNights(r: Reservation, room: int)
    ensures Nights(SetRoomNumber(r, room)) == Nights(r)
    ensures SetRoomNumber(r, room) == Reservation(room, r.checkIn, r.checkOut)
  {
  }
}

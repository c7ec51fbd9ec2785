/** The reservation rules of the command-line driver.

    The entity accepts any dates; the business rules live only in the
    driver, which guards the creation of a reservation and the update of
    its dates. The clock read of the driver is the parameter `now`, and the
    error messages it prints are the verdicts of this module.
 */
module Rules {
  import opened Entities

  /** Outcome of a guard: accepted, or the rule it broke. */
  datatype Verdict = Ok | PastDate | InvalidRange

  datatype Option<T> = None | Some(value: T)

  /** The text printed for a rejected reservation. */
  function ErrorMessage(v: Verdict): (msg: string)
    requires v != Ok
    ensures |msg| > |"Error in reservation: "|
    ensures msg[..|"Error in reservation: "|] == "Error in reservation: "
  {
    "Error in reservation: " +
    match v
    case PastDate => "dates must be future"
    case InvalidRange => "Check-out date must be after check-in date"
  }

  /** The two rejections are told apart by their messages. */
  lemma ErrorMessagesDistinct()
    ensures ErrorMessage(PastDate) != ErrorMessage(InvalidRange)
  {
  }

  /** Guard on creation: check-out must be strictly after check-in. */
  function CreationVerdict(checkIn: EpochDay, checkOut: EpochDay): (v: Verdict)
    ensures v == Ok <==> checkOut > checkIn
    ensures v == InvalidRange <==> checkOut <= checkIn
    ensures v != PastDate
  {
    if !(checkOut > checkIn) then InvalidRange else Ok
  }

  /** Guard on update: neither date may lie before `now`; only then must
      check-out be strictly after check-in. A date equal to `now` passes. */
  function UpdateVerdict(checkIn: EpochDay, checkOut: EpochDay, now: EpochDay): (v: Verdict)
    ensures v == PastDate <==> checkIn < now || checkOut < now
    ensures v == InvalidRange <==> now <= checkIn && now <= checkOut && checkOut <= checkIn
    ensures v == Ok <==> now <= checkIn < checkOut
  {
    if checkIn < now || checkOut < now then PastDate
    else if !(checkOut > checkIn) then InvalidRange
    else Ok
  }

  /** Creates a reservation only when the creation guard accepts the dates. */
  function TryCreate(roomNumber: int, checkIn: EpochDay, checkOut: EpochDay): (o: Option<Reservation>)
    ensures o.Some? <==> CreationVerdict(checkIn, checkOut) == Ok
    ensures o.Some? ==> o.value == Reservation(roomNumber, checkIn, checkOut)
    ensures o.Some? ==> Valid(o.value) && Duration(o.value) >= 1
  {
    if CreationVerdict(checkIn, checkOut) == Ok
    then Some(Reservation(roomNumber, checkIn, checkOut))
    else None
  }

  /** Applies `UpdateDates` only when the update guard accepts the new dates;
      a rejected update leaves the reservation as it was. */
  function TryUpdate(r: Reservation, checkIn: EpochDay, checkOut: EpochDay, now: EpochDay): (r': Reservation)
    ensures UpdateVerdict(checkIn, checkOut, now) == Ok ==> r' == UpdateDates(r, checkIn, checkOut)
    ensures UpdateVerdict(checkIn, checkOut, now) != Ok ==> r' == r
    ensures r'.roomNumber == r.roomNumber
    ensures Valid(r) ==> Valid(r')
  {
    if UpdateVerdict(checkIn, checkOut, now) == Ok then UpdateDates(r, checkIn, checkOut) else r
  }

  /** The driver's whole run: create a reservation for `room` from the first
      pair of dates, then try to move it to the second pair. The result is
      the reservation the driver holds at the end, if one was created. */
  function Session(room: int, checkIn: EpochDay, checkOut: EpochDay,
                   newCheckIn: EpochDay, newCheckOut: EpochDay, now: EpochDay): (o: Option<Reservation>)
    ensures o.Some? <==> checkOut > checkIn
    ensures o.Some? ==> Valid(o.value) && Duration(o.value) >= 1 && o.value.roomNumber == room
    ensures o.Some? && now <= newCheckIn < newCheckOut ==>
              o.value.checkIn == newCheckIn && o.value.checkOut == newCheckOut
    ensures o.Some? && !(now <= newCheckIn < newCheckOut) ==>
              o.value.checkIn == checkIn && o.value.checkOut == checkOut
  {
    match TryCreate(room, checkIn, checkOut)
    case None => None
    case Some(r) => Some(TryUpdate(r, newCheckIn, newCheckOut, now))
  }

  /** A requested date change. */
  datatype Request = Request(checkIn: EpochDay, checkOut: EpochDay)

  /** A request the update guard accepts. */
  predicate Accepted(req: Request, now: EpochDay) {
    UpdateVerdict(req.checkIn, req.checkOut, now) == Ok
  }

  /** Position of the last accepted request, or -1 when the guard rejects
      them all. */
  function LastAcceptedIndex(reqs: seq<Request>, now: EpochDay): (i: int)
    ensures -1 <= i < |reqs|
    ensures i >= 0 ==> Accepted(reqs[i], now)
    ensures forall j :: i < j < |reqs| ==> !Accepted(reqs[j], now)
    decreases |reqs|
  {
    if |reqs| == 0 then -1
    else if Accepted(reqs[|reqs| - 1], now) then |reqs| - 1
    else LastAcceptedIndex(reqs[..|reqs| - 1], now)
  }

  /** Submits the requests in order through the update guard; the driver
      itself submits a single one (`SingleRequestIsTryUpdate`). The room is
      kept, validity is kept, and the dates held at the end are those of the
      last accepted request, or the original ones when none is accepted. */
  function ApplyUpdates(r: Reservation, reqs: seq<Request>, now: EpochDay): (r': Reservation)
    ensures r'.roomNumber == r.roomNumber
    ensures Valid(r) ==> Valid(r')
    ensures LastAcceptedIndex(reqs, now) < 0 ==> r' == r
    ensures LastAcceptedIndex(reqs, now) >= 0 ==>
              r' == UpdateDates(r, reqs[LastAcceptedIndex(reqs, now)].checkIn,
                                   reqs[LastAcceptedIndex(reqs, now)].checkOut)
    decreases |reqs|
  {
    if |reqs| == 0 then r
    else
      var last := reqs[|reqs| - 1];
      TryUpdate(ApplyUpdates(r, reqs[..|reqs| - 1], now), last.checkIn, last.checkOut, now)
  }

  /** With one request, as the driver makes, the repeated update is exactly
      one guarded update. */
  lemma SingleRequestIsTryUpdate(r: Reservation, checkIn: EpochDay, checkOut: EpochDay, now: EpochDay)
    ensures ApplyUpdates(r, [Request(checkIn, checkOut)], now) == TryUpdate(r, checkIn, checkOut, now)
  {
    assert [Request(checkIn, checkOut)][..0] == [];
  }

  /** The past-date rule is checked first: a date before `now` is reported
      as such even when the range is also reversed. */
  lemma PastDateTakesPrecedence(checkIn: EpochDay, checkOut: EpochDay, now: EpochDay)
    requires checkIn < now || checkOut < now
    requires checkOut <= checkIn
    ensures UpdateVerdict(checkIn, checkOut, now) == PastDate
  {
  }

  /** Equal dates are rejected on creation and on update alike. */
  lemma EqualDatesRejected(room: int, day: EpochDay, now: EpochDay)
    ensures CreationVerdict(day, day) == InvalidRange
    ensures TryCreate(room, day, day) == None
    ensures UpdateVerdict(day, day, now) != Ok
  {
  }

  /** Every reservation that went through the guards is valid: created by
      `TryCreate` and moved by any number of guarded updates, it keeps
      check-out after check-in, so its duration is at least one night. */
  lemma GuardedReservationsValid(room: int, checkIn: EpochDay, checkOut: EpochDay,
                                  reqs: seq<Request>, now: EpochDay)
    requires TryCreate(room, checkIn, checkOut).Some?
    ensures Valid(ApplyUpdates(TryCreate(room, checkIn, checkOut).value, reqs, now))
    ensures Duration(ApplyUpdates(TryCreate(room, checkIn, checkOut).value, reqs, now)) >= 1
  {
  }

  /** If every request is rejected, the reservation is exactly as before. */
  lemma RejectedUpdatesChangeNothing(r: Reservation, reqs: seq<Request>, now: EpochDay)
    requires forall i :: 0 <= i < |reqs| ==> !Accepted(reqs[i], now)
    ensures ApplyUpdates(r, reqs, now) == r
  {
  }

  /** An accepted request fixes the dates, whatever came before it. */
  lemma AcceptedUpdateOverrides(r: Reservation, reqs: seq<Request>, req: Request, now: EpochDay)
    requires UpdateVerdict(req.checkIn, req.checkOut, now) == Ok
    ensures ApplyUpdates(r, reqs + [req], now) ==
            Reservation(r.roomNumber, req.checkIn, req.checkOut)
  {
  }

  /** Room 101 from 2030-01-10 (epoch day 21924) to 2030-01-15 (epoch day
      21929) is created and lasts five nights; the reversed pair is refused. */
  lemma Room101Example()
    ensures TryCreate(101, 21924, 21929) == Some(Reservation(101, 21924, 21929))
    ensures Duration(Reservation(101, 21924, 21929)) == 5
    ensures TryCreate(101, 21929, 21924) == None
    ensures CreationVerdict(21929, 21924) == InvalidRange
  {
  }
}

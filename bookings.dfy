/** The booking ledger: creating a booking (validation chain, overlap
    test, price), the per-user and per-owner listings, viewing one
    booking, the owner's status overwrite, the user's cancellation and the
    owner's delete. The booking collection is a sequence kept in creation
    order inside a Ledger object. Requests are handled one at a time. */
module Bookings {
  import opened Outcomes
  import opened Seqs
  import opened Records
  import Cars
  import Text

  // ----- requests -----

  /** A date field of the request body as `new Date(...)` reads it:
      absent or empty, not a date (an Invalid Date), or an instant. */
  datatype DateArg = Missing | Unparseable | At(ms: Millis)

  /** The body of POST /bookings. */
  datatype BookingRequest = BookingRequest(carId: Option<Id>, pickupDate: DateArg, returnDate: DateArg)

  predicate MissingArgument(req: BookingRequest) {
    req.carId.None? || req.pickupDate.Missing? || req.returnDate.Missing?
  }

  // ----- the overlap test -----

  /** The conflict query: an existing booking blocks the request when it is
      for the same car, still holds it (pending or confirmed), and the two
      closed date ranges meet. */
  predicate Conflicts(b: Booking, car: Id, pickup: Millis, ret: Millis) {
    b.car == car && Active(b.status) && b.pickupDate <= ret && b.returnDate >= pickup
  }

  predicate HasConflict(bs: seq<Booking>, car: Id, pickup: Millis, ret: Millis) {
    exists i :: 0 <= i < |bs| && Conflicts(bs[i], car, pickup, ret)
  }

  predicate Within(t: int, lo: int, hi: int) {
    lo <= t <= hi
  }

  /** The query is a closed-interval intersection test: for well-formed
      ranges it holds exactly when some instant lies in both ranges, so a
      range that ends on the instant another begins conflicts with it. */
  lemma ConflictIsSharedInstant(b: Booking, car: Id, pickup: Millis, ret: Millis)
    requires b.pickupDate <= b.returnDate && pickup <= ret
    ensures Conflicts(b, car, pickup, ret) <==>
            b.car == car && Active(b.status) &&
            exists t :: Within(t, b.pickupDate, b.returnDate) && Within(t, pickup, ret)
  {
    if b.pickupDate <= ret && b.returnDate >= pickup {
      var t := if b.pickupDate <= pickup then pickup else b.pickupDate;
      assert Within(t, b.pickupDate, b.returnDate) && Within(t, pickup, ret);
    }
  }

  /** Cancelled and completed bookings never block a request. */
  lemma InactiveNeverConflicts(bs: seq<Booking>, car: Id, pickup: Millis, ret: Millis)
    requires forall i :: 0 <= i < |bs| ==> !Active(bs[i].status)
    ensures !HasConflict(bs, car, pickup, ret)
  {
  }

  /** Two stored bookings double-book a car. */
  predicate Overlap(a: Booking, b: Booking) {
    a.car == b.car && Active(a.status) && Active(b.status)
    && a.pickupDate <= b.returnDate && a.returnDate >= b.pickupDate
  }

  /** No two distinct bookings of one car overlap while both hold it. */
  ghost predicate NoDoubleBooking(bs: seq<Booking>) {
    forall i, j :: 0 <= i < |bs| && 0 <= j < |bs| && i != j ==> !Overlap(bs[i], bs[j])
  }

  /** A booking that passed the conflict query can join the ledger
      without double-booking its car. */
  lemma AppendKeepsNoDoubleBooking(bs: seq<Booking>, b: Booking)
    requires NoDoubleBooking(bs)
    requires !HasConflict(bs, b.car, b.pickupDate, b.returnDate)
    ensures NoDoubleBooking(bs + [b])
  {
    var r := bs + [b];
    forall i, j | 0 <= i < |r| && 0 <= j < |r| && i != j ensures !Overlap(r[i], r[j]) {
      if i == |bs| {
        assert !Conflicts(bs[j], b.car, b.pickupDate, b.returnDate);
      } else if j == |bs| {
        assert !Conflicts(bs[i], b.car, b.pickupDate, b.returnDate);
      }
    }
  }

  /** The ledger with the i-th booking's status overwritten. */
  function SetStatus(bs: seq<Booking>, i: nat, s: Status): (r: seq<Booking>)
    requires i < |bs|
    ensures |r| == |bs| && r[i] == bs[i].(status := s)
    ensures forall j :: 0 <= j < |bs| && j != i ==> r[j] == bs[j]
  {
    bs[i := bs[i].(status := s)]
  }

  /** Overwriting a status cannot double-book a car unless it turns a
      booking that did not hold its car into one that does. */
  lemma StatusChangeKeepsNoDoubleBooking(bs: seq<Booking>, i: nat, s: Status)
    requires NoDoubleBooking(bs) && i < |bs|
    requires !Active(s) || Active(bs[i].status)
    ensures NoDoubleBooking(SetStatus(bs, i, s))
  {
    var r := SetStatus(bs, i, s);
    forall j, k | 0 <= j < |r| && 0 <= k < |r| && j != k ensures !Overlap(r[j], r[k]) {
      assert !Overlap(bs[j], bs[k]);
    }
  }

  /** Removing a booking cannot double-book a car. */
  lemma RemoveKeepsNoDoubleBooking(bs: seq<Booking>, i: nat)
    requires NoDoubleBooking(bs) && i < |bs|
    ensures NoDoubleBooking(bs[..i] + bs[i + 1..])
  {
    var r := bs[..i] + bs[i + 1..];
    forall j, k | 0 <= j < |r| && 0 <= k < |r| && j != k ensures !Overlap(r[j], r[k]) {
      var j', k' := if j < i then j else j + 1, if k < i then k else k + 1;
      assert r[j] == bs[j'] && r[k] == bs[k'];
    }
  }

  // ----- the price -----

  /** Ceiling of a / d, the integer form of `Math.ceil(a / d)`. */
  function CeilDiv(a: int, d: int): (q: int)
    requires d > 0
    ensures d * (q - 1) < a <= d * q
  {
    var m := (-a) / d;
    assert -a == d * m + (-a) % d;
    -m
  }

  /** The billed days, `ceil((return - pickup) / day) + 1`: one more than
      the fewest whole days that cover the span. */
  function RentalDays(pickup: Millis, ret: Millis): (n: int)
    ensures DayMs * (n - 2) < ret - pickup <= DayMs * (n - 1)
  {
    CeilDiv(ret - pickup, DayMs) + 1
  }

  /** The booking price: billed days times the car's daily rate. */
  function RentalPrice(pickup: Millis, ret: Millis, rate: int): int {
    RentalDays(pickup, ret) * rate
  }

  /** Dates n whole days apart bill n + 1 days: both the pickup and the
      return day are paid for. */
  lemma WholeDaysBillInclusive(pickup: Millis, n: nat, rate: int)
    ensures RentalDays(pickup, pickup + n * DayMs) == n + 1
    ensures RentalPrice(pickup, pickup + n * DayMs, rate) == (n + 1) * rate
  {
    var k := RentalDays(pickup, pickup + n * DayMs);
    assert 86_400_000 * (k - 2) < 86_400_000 * n <= 86_400_000 * (k - 1);
  }

  /** A booking (return strictly after pickup) always bills at least two
      days, and its price is not negative for a non-negative rate. */
  lemma ValidRangeBillsTwoDaysOrMore(pickup: Millis, ret: Millis, rate: int)
    requires pickup < ret && rate >= 0
    ensures RentalDays(pickup, ret) >= 2
    ensures RentalPrice(pickup, ret, rate) >= 2 * rate >= 0
  {
    var n := RentalDays(pickup, ret);
    assert 0 < 86_400_000 * (n - 1);
    assert n * rate == 2 * rate + (n - 2) * rate;
  }

  /** December 10 to December 14 at 150 a day is five days, 750. */
  lemma FiveDayExample()
    ensures RentalPrice(10 * DayMs, 14 * DayMs, 150) == 750
  {
    WholeDaysBillInclusive(10 * DayMs, 4, 150);
  }

  // ----- the handlers' decisions -----

  /** i is the index findById returns for id: the first car with that id. */
  predicate FirstWithId(cars: seq<Car>, id: Id, i: int) {
    0 <= i < |cars| && cars[i].id == id && forall j :: 0 <= j < i ==> cars[j].id != id
  }

  /** The request names every field and a car that exists and is available:
      the first three checks of createBooking pass. */
  ghost predicate CarAvailable(cars: seq<Car>, req: BookingRequest) {
    !MissingArgument(req) && exists i :: FirstWithId(cars, req.carId.value, i) && cars[i].isAvailable
  }

  /** createBooking's validation chain, the first failing check deciding:
      missing fields, unknown car, unavailable car, pickup before today's
      midnight, return not after pickup, then the conflict query. An
      Invalid Date passes both date comparisons (they are false on NaN)
      and makes the store query throw, which the handler answers with 500.
      Each failure holds exactly when its own test fails and every earlier
      one passed. On success the car to book. */
  function CreateCheck(bs: seq<Booking>, cars: seq<Car>, req: BookingRequest, today: Millis): (r: Outcome<Car>)
    ensures r == Err(MissingField) <==> MissingArgument(req)
    ensures r == Err(NotFound) <==>
              !MissingArgument(req) && forall i :: 0 <= i < |cars| ==> cars[i].id != req.carId.value
    ensures r == Err(Unavailable) <==>
              !MissingArgument(req) && exists i :: FirstWithId(cars, req.carId.value, i) && !cars[i].isAvailable
    ensures r == Err(PastPickup) <==>
              CarAvailable(cars, req) && req.pickupDate.At? && req.pickupDate.ms < today
    ensures r == Err(InvalidRange) <==>
              && CarAvailable(cars, req) && req.pickupDate.At? && req.returnDate.At?
              && today <= req.pickupDate.ms && req.returnDate.ms <= req.pickupDate.ms
    ensures r == Err(Internal) <==>
              && CarAvailable(cars, req) && (req.pickupDate.Unparseable? || req.returnDate.Unparseable?)
              && !(req.pickupDate.At? && req.pickupDate.ms < today)
    ensures r == Err(Conflict) <==>
              && CarAvailable(cars, req) && req.pickupDate.At? && req.returnDate.At?
              && today <= req.pickupDate.ms < req.returnDate.ms
              && HasConflict(bs, req.carId.value, req.pickupDate.ms, req.returnDate.ms)
    ensures r.Ok? <==>
              && CarAvailable(cars, req) && req.pickupDate.At? && req.returnDate.At?
              && today <= req.pickupDate.ms < req.returnDate.ms
              && !HasConflict(bs, req.carId.value, req.pickupDate.ms, req.returnDate.ms)
    ensures r.Err? ==> r.failure in {MissingField, NotFound, Unavailable, PastPickup, InvalidRange, Internal, Conflict}
    ensures r.Ok? ==> && req.carId.Some? && r.value in cars && r.value.id == req.carId.value && r.value.isAvailable
                      && exists i :: FirstWithId(cars, req.carId.value, i) && r.value == cars[i]
  {
    if MissingArgument(req) then Err(MissingField)
    else match Find(cars, CarKey, req.carId.value)
      case None => Err(NotFound)
      case Some(i) =>
        assert FirstWithId(cars, req.carId.value, i);
        var car := cars[i];
        var pickup, ret := req.pickupDate, req.returnDate;
        if !car.isAvailable then Err(Unavailable)
        else if pickup.At? && pickup.ms < today then Err(PastPickup)
        else if pickup.At? && ret.At? && ret.ms <= pickup.ms then Err(InvalidRange)
        else if !pickup.At? || !ret.At? then Err(Internal)
        else if HasConflict(bs, car.id, pickup.ms, ret.ms) then Err(Conflict)
        else Ok(car)
  }

  /** The booking createBooking saves for a request that passed. */
  function NewBooking(id: Id, car: Car, user: Id, pickup: Millis, ret: Millis, now: Millis): Booking {
    Booking(id, car.id, user, car.owner, pickup, ret, DefaultStatus, RentalPrice(pickup, ret, car.pricePerDay), now)
  }

  /** getBookingById: only the booking's user or its owner may see it. */
  function ViewCheck(bs: seq<Booking>, caller: Caller, id: Id): (r: Outcome<nat>)
    ensures r.Err? ==> r.failure in {NotFound, Forbidden}
    ensures r == Err(NotFound) <==> forall i :: 0 <= i < |bs| ==> bs[i].id != id
    ensures r == Err(Forbidden) ==>
              exists i :: 0 <= i < |bs| && bs[i].id == id && bs[i].user != caller.id && bs[i].owner != caller.id
    ensures r.Ok? ==> r.value < |bs| && bs[r.value].id == id &&
                      (bs[r.value].user == caller.id || bs[r.value].owner == caller.id)
    ensures (exists i :: 0 <= i < |bs| && bs[i].id == id) &&
            (forall i :: 0 <= i < |bs| && bs[i].id == id ==> bs[i].user == caller.id || bs[i].owner == caller.id)
            ==> r.Ok?
  {
    match Find(bs, BookingKey, id)
    case None => Err(NotFound)
    case Some(i) =>
      if bs[i].user != caller.id && bs[i].owner != caller.id then Err(Forbidden) else Ok(i)
  }

  /** updateBookingStatus: the status must be one of the four names
      (checked before the lookup), the booking must exist, and the caller
      must be its owner. Any status may then replace any other. */
  function UpdateStatusCheck(bs: seq<Booking>, caller: Caller, id: Id, status: string): (r: Outcome<(nat, Status)>)
    ensures r.Err? ==> r.failure in {InvalidStatus, NotFound, Forbidden}
    ensures r == Err(InvalidStatus) <==> ParseStatus(status).None?
    ensures r == Err(NotFound) <==>
              ParseStatus(status).Some? && forall i :: 0 <= i < |bs| ==> bs[i].id != id
    ensures r == Err(Forbidden) ==>
              exists i :: 0 <= i < |bs| && bs[i].id == id && bs[i].owner != caller.id
    ensures r.Ok? ==> r.value.0 < |bs| && bs[r.value.0].id == id && bs[r.value.0].owner == caller.id
                      && StatusName(r.value.1) == status
    ensures ParseStatus(status).Some? && (exists i :: 0 <= i < |bs| && bs[i].id == id) &&
            (forall i :: 0 <= i < |bs| && bs[i].id == id ==> bs[i].owner == caller.id)
            ==> r.Ok?
  {
    match ParseStatus(status)
    case None => Err(InvalidStatus)
    case Some(s) =>
      match Find(bs, BookingKey, id)
      case None => Err(NotFound)
      case Some(i) => if bs[i].owner != caller.id then Err(Forbidden) else Ok((i, s))
  }

  /** cancelBooking: the booking must exist, the caller must be the user
      who booked it, and it must still be pending or confirmed. */
  function CancelCheck(bs: seq<Booking>, caller: Caller, id: Id): (r: Outcome<nat>)
    ensures r.Err? ==> r.failure in {NotFound, Forbidden, NotCancellable}
    ensures r == Err(NotFound) <==> forall i :: 0 <= i < |bs| ==> bs[i].id != id
    ensures r == Err(Forbidden) ==> exists i :: 0 <= i < |bs| && bs[i].id == id && bs[i].user != caller.id
    ensures r == Err(NotCancellable) ==>
              exists i :: 0 <= i < |bs| && bs[i].id == id && bs[i].user == caller.id && !Active(bs[i].status)
    ensures r.Ok? ==> r.value < |bs| && bs[r.value].id == id && bs[r.value].user == caller.id
                      && Active(bs[r.value].status)
    ensures (exists i :: 0 <= i < |bs| && bs[i].id == id) &&
            (forall i :: 0 <= i < |bs| && bs[i].id == id ==> bs[i].user == caller.id && Active(bs[i].status))
            ==> r.Ok?
  {
    match Find(bs, BookingKey, id)
    case None => Err(NotFound)
    case Some(i) =>
      if bs[i].user != caller.id then Err(Forbidden)
      else if !Active(bs[i].status) then Err(NotCancellable)
      else Ok(i)
  }

  /** deleteBooking: the booking must exist and the caller must be its owner. */
  function DeleteCheck(bs: seq<Booking>, caller: Caller, id: Id): (r: Outcome<nat>)
    ensures r.Err? ==> r.failure in {NotFound, Forbidden}
    ensures r == Err(NotFound) <==> forall i :: 0 <= i < |bs| ==> bs[i].id != id
    ensures r == Err(Forbidden) ==> exists i :: 0 <= i < |bs| && bs[i].id == id && bs[i].owner != caller.id
    ensures r.Ok? ==> r.value < |bs| && bs[r.value].id == id && bs[r.value].owner == caller.id
    ensures (exists i :: 0 <= i < |bs| && bs[i].id == id) &&
            (forall i :: 0 <= i < |bs| && bs[i].id == id ==> bs[i].owner == caller.id)
            ==> r.Ok?
  {
    match Find(bs, BookingKey, id)
    case None => Err(NotFound)
    case Some(i) => if bs[i].owner != caller.id then Err(Forbidden) else Ok(i)
  }

  /** The owner's unrestricted overwrite can re-activate a cancelled
      booking whose dates were meanwhile given to someone else: the store
      below has no double booking, the owner's request to set booking 1
      back to "pending" is accepted, and afterwards the car is
      double-booked. */
  lemma ReactivationDoubleBooks()
    ensures var bs := [Booking(1, 7, 21, 10, DayMs, 3 * DayMs, Cancelled, 300, 1),
                       Booking(2, 7, 20, 10, DayMs, 3 * DayMs, Pending, 300, 2)];
            && NoDoubleBooking(bs)
            && UpdateStatusCheck(bs, Caller(10, Owner), 1, "pending") == Ok((0, Pending))
            && !NoDoubleBooking(SetStatus(bs, 0, Pending))
  {
    var bs := [Booking(1, 7, 21, 10, DayMs, 3 * DayMs, Cancelled, 300, 1),
               Booking(2, 7, 20, 10, DayMs, 3 * DayMs, Pending, 300, 2)];
    var after := SetStatus(bs, 0, Pending);
    assert Overlap(after[0], after[1]);
  }

  // ----- the store -----

  /** The ledger invariant: every stored booking passed the schema and was
      created with its return after its pickup; ids are unique and below
      nextId; creation times never decrease. */
  ghost predicate WellFormed(bs: seq<Booking>, nextId: Id) {
    && (forall i :: 0 <= i < |bs| ==>
          bs[i].id < nextId && ValidBooking(bs[i]) && bs[i].pickupDate < bs[i].returnDate)
    && (forall i, j :: 0 <= i < j < |bs| ==> bs[i].id != bs[j].id)
    && Ascending(bs, BookingStamp)
  }

  /** Overwriting a status keeps the invariant. */
  lemma SetStatusKeepsWellFormed(bs: seq<Booking>, nextId: Id, i: nat, s: Status)
    requires WellFormed(bs, nextId) && i < |bs|
    ensures WellFormed(SetStatus(bs, i, s), nextId)
  {
    var r := SetStatus(bs, i, s);
    assert forall j :: 0 <= j < |r| ==> r[j] == bs[j].(status := r[j].status);
  }

  /** Deleting the i-th booking keeps the invariant and leaves no booking
      with its id. */
  lemma RemoveKeepsWellFormed(bs: seq<Booking>, nextId: Id, i: nat)
    requires WellFormed(bs, nextId) && i < |bs|
    ensures WellFormed(bs[..i] + bs[i + 1..], nextId)
    ensures forall b :: b in bs[..i] + bs[i + 1..] ==> b.id != bs[i].id
  {
    var r := bs[..i] + bs[i + 1..];
    assert forall j :: 0 <= j < |r| ==> r[j] == bs[if j < i then j else j + 1];
    AscendingRemove(bs, i, BookingStamp);
  }

  /** The booking collection, in creation order. */
  class Ledger {
    var bookings: seq<Booking>
    var nextId: Id

    /** Every stored booking passed the schema and was created with its
        return after its pickup; ids are unique and below nextId; creation
        times never decrease. */
    ghost predicate Valid()
      reads this
    {
      WellFormed(bookings, nextId)
    }

    constructor ()
      ensures Valid() && bookings == [] && nextId == 0 && NoDoubleBooking(bookings)
    {
      bookings := [];
      nextId := 0;
    }

    /** POST /bookings. `today` is the current day's midnight and `now`
        the creation time; the clock does not run backwards. */
    method CreateBooking(caller: Caller, req: BookingRequest, store: Cars.CarStore, today: Millis, now: Millis)
      returns (r: Outcome<Booking>)
      requires Valid() && store.Valid()
      requires forall i :: 0 <= i < |bookings| ==> bookings[i].createdAt <= now
      modifies this
      ensures Valid()
      ensures CreateCheck(old(bookings), store.cars, req, today).Err? ==>
                && r == Err(CreateCheck(old(bookings), store.cars, req, today).failure)
                && bookings == old(bookings) && nextId == old(nextId)
      ensures CreateCheck(old(bookings), store.cars, req, today).Ok? ==>
                && r == Ok(NewBooking(old(nextId), CreateCheck(old(bookings), store.cars, req, today).value,
                                      caller.id, req.pickupDate.ms, req.returnDate.ms, now))
                && bookings == old(bookings) + [r.value] && nextId == old(nextId) + 1
      ensures r.Ok? ==> && r.value.status == Pending && r.value.user == caller.id
                        && r.value.car == req.carId.value
                        && r.value.pickupDate == req.pickupDate.ms && r.value.returnDate == req.returnDate.ms
                        && r.value.id !in set b | b in old(bookings) :: b.id
      ensures NoDoubleBooking(old(bookings)) ==> NoDoubleBooking(bookings)
    {
      var check := CreateCheck(bookings, store.cars, req, today);
      if check.Err? {
        r := Err(check.failure);
        return;
      }
      var car := check.value;
      assert ValidCar(car);
      var b := NewBooking(nextId, car, caller.id, req.pickupDate.ms, req.returnDate.ms, now);
      ValidRangeBillsTwoDaysOrMore(b.pickupDate, b.returnDate, car.pricePerDay);
      if NoDoubleBooking(bookings) {
        AppendKeepsNoDoubleBooking(bookings, b);
      }
      AscendingAppend(bookings, b, BookingStamp);
      bookings := bookings + [b];
      nextId := nextId + 1;
      r := Ok(b);
    }

    /** GET /bookings/my-bookings: exactly the caller's bookings, newest first. */
    method GetUserBookings(caller: Caller) returns (r: seq<Booking>)
      requires Valid()
      ensures forall b :: b in r <==> b in bookings && b.user == caller.id
      ensures Descending(r, BookingStamp)
      ensures IsSubsequence(Reverse(r), bookings)
    {
      var keep := (b: Booking) => b.user == caller.id;
      r := Reverse(Filter(bookings, keep));
      NewestFirstQuery(bookings, keep, BookingStamp);
    }

    /** GET /bookings/owner/bookings: exactly the bookings whose recorded
        owner is the caller, newest first. The owner is the one copied
        from the car when the booking was made. */
    method GetOwnerBookings(caller: Caller) returns (r: seq<Booking>)
      requires Valid() && caller.role == Owner
      ensures forall b :: b in r <==> b in bookings && b.owner == caller.id
      ensures Descending(r, BookingStamp)
      ensures IsSubsequence(Reverse(r), bookings)
    {
      var keep := (b: Booking) => b.owner == caller.id;
      r := Reverse(Filter(bookings, keep));
      NewestFirstQuery(bookings, keep, BookingStamp);
    }

    /** GET /bookings/:id. */
    method GetBookingById(caller: Caller, id: Id) returns (r: Outcome<Booking>)
      requires Valid()
      ensures r.Ok? ==> r.value in bookings && r.value.id == id &&
                        (r.value.user == caller.id || r.value.owner == caller.id)
      ensures r == Err(NotFound) <==> forall i :: 0 <= i < |bookings| ==> bookings[i].id != id
      ensures r == Err(Forbidden) <==>
                exists i :: 0 <= i < |bookings| && bookings[i].id == id &&
                            bookings[i].user != caller.id && bookings[i].owner != caller.id
      ensures r.Err? ==> r.failure in {NotFound, Forbidden}
    {
      var check := ViewCheck(bookings, caller, id);
      if check.Err? {
        r := Err(check.failure);
      } else {
        r := Ok(bookings[check.value]);
      }
    }

    /** PATCH /bookings/:id/status (owner only). */
    method UpdateBookingStatus(caller: Caller, id: Id, status: string) returns (r: Outcome<Booking>)
      requires Valid() && caller.role == Owner
      modifies this
      ensures Valid() && nextId == old(nextId)
      ensures UpdateStatusCheck(old(bookings), caller, id, status).Err? ==>
                r == Err(UpdateStatusCheck(old(bookings), caller, id, status).failure) && bookings == old(bookings)
      ensures UpdateStatusCheck(old(bookings), caller, id, status).Ok? ==>
                var (i, s) := UpdateStatusCheck(old(bookings), caller, id, status).value;
                && bookings == SetStatus(old(bookings), i, s) && r == Ok(bookings[i])
                && ((NoDoubleBooking(old(bookings)) && (Active(old(bookings)[i].status) || !Active(s)))
                    ==> NoDoubleBooking(bookings))
    {
      var check := UpdateStatusCheck(bookings, caller, id, status);
      if check.Err? {
        r := Err(check.failure);
        return;
      }
      var (i, s) := check.value;
      if NoDoubleBooking(bookings) && (Active(bookings[i].status) || !Active(s)) {
        StatusChangeKeepsNoDoubleBooking(bookings, i, s);
      }
      SetStatusKeepsWellFormed(bookings, nextId, i, s);
      bookings := SetStatus(bookings, i, s);
      r := Ok(bookings[i]);
    }

    /** PATCH /bookings/:id/cancel. */
    method CancelBooking(caller: Caller, id: Id) returns (r: Outcome<Booking>)
      requires Valid()
      modifies this
      ensures Valid() && nextId == old(nextId)
      ensures CancelCheck(old(bookings), caller, id).Err? ==>
                r == Err(CancelCheck(old(bookings), caller, id).failure) && bookings == old(bookings)
      ensures CancelCheck(old(bookings), caller, id).Ok? ==>
                var i := CancelCheck(old(bookings), caller, id).value;
                bookings == SetStatus(old(bookings), i, Cancelled) && r == Ok(bookings[i])
      ensures NoDoubleBooking(old(bookings)) ==> NoDoubleBooking(bookings)
    {
      var check := CancelCheck(bookings, caller, id);
      if check.Err? {
        r := Err(check.failure);
        return;
      }
      var i := check.value;
      if NoDoubleBooking(bookings) {
        StatusChangeKeepsNoDoubleBooking(bookings, i, Cancelled);
      }
      SetStatusKeepsWellFormed(bookings, nextId, i, Cancelled);
      bookings := SetStatus(bookings, i, Cancelled);
      r := Ok(bookings[i]);
    }

    /** DELETE /bookings/:id (owner only). */
    method DeleteBooking(caller: Caller, id: Id) returns (r: Outcome<()>)
      requires Valid() && caller.role == Owner
      modifies this
      ensures Valid() && nextId == old(nextId)
      ensures DeleteCheck(old(bookings), caller, id).Err? ==>
                r == Err(DeleteCheck(old(bookings), caller, id).failure) && bookings == old(bookings)
      ensures DeleteCheck(old(bookings), caller, id).Ok? ==>
                var i := DeleteCheck(old(bookings), caller, id).value;
                && r == Ok(()) && bookings == old(bookings)[..i] + old(bookings)[i + 1..]
                && forall j :: 0 <= j < |bookings| ==> bookings[j].id != id
      ensures NoDoubleBooking(old(bookings)) ==> NoDoubleBooking(bookings)
    {
      var check := DeleteCheck(bookings, caller, id);
      if check.Err? {
        r := Err(check.failure);
        return;
      }
      var i := check.value;
      if NoDoubleBooking(bookings) {
        RemoveKeepsNoDoubleBooking(bookings, i);
      }
      RemoveKeepsWellFormed(bookings, nextId, i);
      bookings := bookings[..i] + bookings[i + 1..];
      r := Ok(());
    }
  }

  /** The car of the scenario below. */
  const ScenarioCar := Car(0, 10, "Honda", "Civic", "/uploads/civic.png", 2020, Sedan, 5, Petrol,
                           Automatic, 100, Chicago, "Compact", true, 0)

  /** The scenario's request for days 1 to 3 passes against a ledger whose
      only booking of those dates is cancelled. */
  lemma ScenarioRequestPasses(bs: seq<Booking>)
    requires forall i :: 0 <= i < |bs| ==> !Active(bs[i].status)
    ensures CreateCheck(bs, [ScenarioCar], BookingRequest(Some(0), At(DayMs), At(3 * DayMs)), 0) == Ok(ScenarioCar)
  {
    assert Find([ScenarioCar], CarKey, 0) == Some(0);
    InactiveNeverConflicts(bs, 0, DayMs, 3 * DayMs);
  }

  /** The first customer's booking of the scenario, once cancelled. */
  function Released(): Booking {
    NewBooking(0, ScenarioCar, 21, DayMs, 3 * DayMs, 1).(status := Cancelled)
  }

  /** The owner's form for the scenario car. */
  const ScenarioForm := Cars.CarForm("Honda", "Civic", Cars.NumberField("2020", Some(2020)), Cars.NumberField("100", Some(100)),
                                     "Sedan", "Automatic", "Petrol", Cars.NumberField("5", Some(5)), "Chicago", "Compact")

  /** The scenario form passes every cast and validator. */
  lemma ScenarioFormValid()
    ensures Cars.SchemaAccepts(ScenarioForm)
  {
    assert ParseCategory("Sedan") == Some(Sedan) by { assert CategoryName(Sedan) == "Sedan"; }
    assert ParseFuelType("Petrol") == Some(Petrol) by { assert FuelTypeName(Petrol) == "Petrol"; }
    assert ParseTransmission("Automatic") == Some(Automatic) by { assert TransmissionName(Automatic) == "Automatic"; }
    assert ParseLocation("Chicago") == Some(Chicago) by { assert LocationName(Chicago) == "Chicago"; }
    assert !Text.IsWhitespace('H') && !Text.IsWhitespace('C');
    assert "Honda"[0] == 'H' && "Civic"[0] == 'C' && "Compact"[0] == 'C';
  }

  /** Owner 10 adding the form with the upload civic.png at time 0 to an
      empty catalogue stores exactly the scenario car. */
  lemma ScenarioFormAccepted()
    ensures Cars.AddCarCheck(0, Caller(10, Owner), ScenarioForm, Some("civic.png"), 0) == Ok(ScenarioCar)
  {
    ScenarioFormValid();
    Text.TrimOfTrimmed("Honda");
    Text.TrimOfTrimmed("Civic");
    Text.TrimOfTrimmed("Compact");
    assert Cars.FormComplete(ScenarioForm);
    var r := Cars.AddCarCheck(0, Caller(10, Owner), ScenarioForm, Some("civic.png"), 0);
    ScenarioCarFromFields(r.value);
  }

  /** A car carrying the scenario form's fields, stored by owner 10 as car 0
      with the upload civic.png at time 0, is the scenario car. */
  lemma ScenarioCarFromFields(c: Car)
    requires c.id == 0 && c.owner == 10 && c.image == Cars.ImageUrl("civic.png") && c.isAvailable && c.createdAt == 0
    requires c.brand == "Honda" && c.model == "Civic" && c.description == "Compact"
    requires CategoryName(c.category) == "Sedan" && LocationName(c.location) == "Chicago"
    requires FuelTypeName(c.fuelType) == "Petrol" && TransmissionName(c.transmission) == "Automatic"
    requires c.year == 2020 && c.seatingCapacity == 5 && c.pricePerDay == 100
    ensures c == ScenarioCar
  {
    assert c.category == Sedan by {
      assert ParseCategory("Sedan") == Some(c.category) && ParseCategory("Sedan") == Some(Sedan);
    }
    assert c.fuelType == Petrol by {
      assert ParseFuelType("Petrol") == Some(c.fuelType) && ParseFuelType("Petrol") == Some(Petrol);
    }
    assert c.transmission == Automatic by {
      assert ParseTransmission("Automatic") == Some(c.transmission) && ParseTransmission("Automatic") == Some(Automatic);
    }
    assert c.location == Chicago by {
      assert ParseLocation("Chicago") == Some(c.location) && ParseLocation("Chicago") == Some(Chicago);
    }
  }

  /** The scenario's catalogue, built through the add-car handler. */
  method ScenarioStore() returns (store: Cars.CarStore)
    ensures fresh(store) && store.Valid() && store.cars == [ScenarioCar]
  {
    store := new Cars.CarStore();
    ScenarioFormAccepted();
    var added := store.AddCar(Caller(10, Owner), ScenarioForm, Some("civic.png"), 0);
  }

  /** A customer books the scenario car for days 1 to 3 and cancels. */
  method CancelledBookingScenario() returns (store: Cars.CarStore, ledger: Ledger)
    ensures fresh(store) && fresh(ledger)
    ensures store.Valid() && store.cars == [ScenarioCar]
    ensures ledger.Valid() && ledger.bookings == [Released()] && ledger.nextId == 1
  {
    store := ScenarioStore();
    ledger := new Ledger();
    var request := BookingRequest(Some(0), At(DayMs), At(3 * DayMs));
    ScenarioRequestPasses([]);
    var first := ledger.CreateBooking(Caller(21, Customer), request, store, 0, 1);
    assert ledger.bookings == [NewBooking(0, ScenarioCar, 21, DayMs, 3 * DayMs, 1)];
    assert Find(ledger.bookings, BookingKey, 0) == Some(0);
    var cancelled := ledger.CancelBooking(Caller(21, Customer), 0);
  }

  /** The caveat of ReactivationDoubleBooks reached through the handlers:
      after the cancellation above a second customer books the same dates,
      and the owner sets the cancelled booking back to pending: the ledger
      then holds two overlapping bookings of the car. */
  method ReactivationScenario() returns (ledger: Ledger)
    ensures ledger.Valid() && |ledger.bookings| == 2
    ensures Overlap(ledger.bookings[0], ledger.bookings[1])
    ensures !NoDoubleBooking(ledger.bookings)
  {
    var store;
    store, ledger := CancelledBookingScenario();
    var request := BookingRequest(Some(0), At(DayMs), At(3 * DayMs));
    ScenarioRequestPasses([Released()]);
    var second := ledger.CreateBooking(Caller(20, Customer), request, store, 0, 2);
    assert ledger.bookings == [Released(), NewBooking(1, ScenarioCar, 20, DayMs, 3 * DayMs, 2)];
    assert Find(ledger.bookings, BookingKey, 0) == Some(0);
    var reopened := ledger.UpdateBookingStatus(Caller(10, Owner), 0, "pending");
    assert Overlap(ledger.bookings[0], ledger.bookings[1]);
    assert !NoDoubleBooking(ledger.bookings);
  }
}

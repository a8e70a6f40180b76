/**
 * The flight/booking store of the canister (src/icp_rust_boilerplate_backend/src/lib.rs),
 * as a value: the two stable maps and the two id counters, and one transition
 * function per update entry point. Each function returns the state after the
 * call together with the value the entry point returns.
 *
 * The class in module Canister performs these same transitions in place; the
 * lemmas here are what the transitions guarantee.
 */
module Reservations {
  import opened Results

  /** lib.rs keeps its own five-field flight record (no owner, no seat list). */
  datatype Flight = Flight(
    id: nat,
    airline: string,
    destination: string,
    departureTime: nat,
    availableSeats: nat)

  datatype Booking = Booking(
    id: nat,
    flightId: nat,
    passengerName: string,
    seatNumber: nat,
    bookingTime: nat)

  /** One payload type serves every entry point; each reads only the fields it needs. */
  datatype FlightBookingPayload = FlightBookingPayload(
    flightId: nat,
    airline: string,
    destination: string,
    departureTime: nat,
    availableSeats: nat,
    passengerName: string,
    seatNumber: nat)

  /** The error enum of lib.rs; the message text is not modelled. */
  datatype Error = NotFound | NoSeatsAvailable

  /** FLIGHTS, BOOKINGS, FLIGHT_ID_COUNTER and BOOKING_ID_COUNTER. */
  datatype State = State(
    flights: map<nat, Flight>,
    bookings: map<nat, Booking>,
    flightIdCounter: nat,
    bookingIdCounter: nat)

  /** Both counters start at 0 and both maps start empty. */
  const Init := State(map[], map[], 0, 0)

  /**
   * The store's invariant: every record sits under its own id, and every id in
   * use is below its counter, so the next id handed out is unused.
   */
  ghost predicate Valid(s: State) {
    && (forall k :: k in s.flights ==> k < s.flightIdCounter && s.flights[k].id == k)
    && (forall k :: k in s.bookings ==> k < s.bookingIdCounter && s.bookings[k].id == k)
  }

  /** The two maps are as they were. */
  ghost predicate SameRecords(s: State, t: State) {
    s.flights == t.flights && s.bookings == t.bookings
  }

  /** `add_flight`: takes the current counter value as the id, advances the counter, stores the flight. */
  function AddFlight(s: State, p: FlightBookingPayload): (r: (State, Flight))
    ensures r.1.id == s.flightIdCounter && r.0.flightIdCounter == s.flightIdCounter + 1
    ensures r.1.airline == p.airline && r.1.destination == p.destination
    ensures r.1.departureTime == p.departureTime && r.1.availableSeats == p.availableSeats
    ensures r.1.id in r.0.flights && r.0.flights[r.1.id] == r.1
    ensures forall k :: k in s.flights && k != r.1.id ==> k in r.0.flights && r.0.flights[k] == s.flights[k]
    ensures r.0.flights.Keys == s.flights.Keys + {r.1.id}
    ensures r.0.bookings == s.bookings && r.0.bookingIdCounter == s.bookingIdCounter
    ensures Valid(s) ==> r.1.id !in s.flights && Valid(r.0)
  {
    var id := s.flightIdCounter;
    var flight := Flight(id, p.airline, p.destination, p.departureTime, p.availableSeats);
    (s.(flights := s.flights[id := flight], flightIdCounter := id + 1), flight)
  }

  /**
   * `book_flight`: NotFound for an unknown flight, NoSeatsAvailable for a full
   * one; otherwise one seat is taken off the flight and a booking with a fresh
   * id is stored. The seat number is not checked against anything.
   */
  function BookFlight(s: State, p: FlightBookingPayload, now: nat): (r: (State, Result<Booking, Error>))
    ensures r.1 == Err(NotFound) <==> p.flightId !in s.flights
    ensures r.1 == Err(NoSeatsAvailable) <==> p.flightId in s.flights && s.flights[p.flightId].availableSeats == 0
    ensures r.1.Err? ==> r.0 == s
    ensures r.1.Ok? ==>
      var b := r.1.value;
      && b.id == s.bookingIdCounter && r.0.bookingIdCounter == s.bookingIdCounter + 1
      && b.flightId == p.flightId && b.passengerName == p.passengerName
      && b.seatNumber == p.seatNumber && b.bookingTime == now
      && r.0.bookings == s.bookings[b.id := b]
      && r.0.flightIdCounter == s.flightIdCounter
    ensures Valid(s) && r.1.Ok? ==>
      var old_ := s.flights[p.flightId];
      && r.1.value.id !in s.bookings
      && old_.availableSeats > 0
      && r.0.flights == s.flights[p.flightId := old_.(availableSeats := old_.availableSeats - 1)]
      && Valid(r.0)
  {
    if p.flightId !in s.flights then
      (s, Err(NotFound))
    else
      var flight := s.flights[p.flightId];
      if flight.availableSeats == 0 then
        (s, Err(NoSeatsAvailable))
      else
        var updated := flight.(availableSeats := flight.availableSeats - 1);
        var flights := s.flights[flight.id := updated];
        var id := s.bookingIdCounter;
        var booking := Booking(id, p.flightId, p.passengerName, p.seatNumber, now);
        (State(flights, s.bookings[id := booking], s.flightIdCounter, id + 1), Ok(booking))
  }

  /**
   * `update_flight`: replaces airline, destination, departure time and the
   * available seat count of an existing flight; keeps its id.
   */
  function UpdateFlight(s: State, id: nat, p: FlightBookingPayload): (r: (State, Result<Flight, Error>))
    ensures r.1.Err? <==> id !in s.flights
    ensures r.1.Err? ==> r.1.error == NotFound && r.0 == s
    ensures r.1.Ok? ==>
      var f := r.1.value;
      && f.id == s.flights[id].id
      && f.airline == p.airline && f.destination == p.destination
      && f.departureTime == p.departureTime && f.availableSeats == p.availableSeats
      && r.0 == s.(flights := s.flights[id := f])
    ensures Valid(s) ==> Valid(r.0)
  {
    if id !in s.flights then
      (s, Err(NotFound))
    else
      var flight := s.flights[id].(airline := p.airline, destination := p.destination,
                                   departureTime := p.departureTime, availableSeats := p.availableSeats);
      (s.(flights := s.flights[id := flight]), Ok(flight))
  }

  /** `delete_flight`: removes an existing flight; its bookings are left in place. */
  function DeleteFlight(s: State, id: nat): (r: (State, Result<(), Error>))
    ensures r.1.Ok? <==> id in s.flights
    ensures r.1.Err? ==> r.1.error == NotFound && r.0 == s
    ensures r.1.Ok? ==> r.0 == s.(flights := s.flights - {id})
    ensures r.0.bookings == s.bookings
    ensures Valid(s) ==> Valid(r.0)
  {
    if id in s.flights then
      (s.(flights := s.flights - {id}), Ok(()))
    else
      (s, Err(NotFound))
  }

  /**
   * `update_booking`: NotFound unless both the booking and the payload's flight
   * exist; then flight id, passenger name and seat number are overwritten, and
   * id and booking time are kept. Seat counts are not touched.
   */
  function UpdateBooking(s: State, id: nat, p: FlightBookingPayload): (r: (State, Result<Booking, Error>))
    ensures r.1.Err? <==> id !in s.bookings || p.flightId !in s.flights
    ensures r.1.Err? ==> r.1.error == NotFound && r.0 == s
    ensures r.1.Ok? ==>
      var b := r.1.value;
      && b.id == s.bookings[id].id && b.bookingTime == s.bookings[id].bookingTime
      && b.flightId == p.flightId && b.passengerName == p.passengerName && b.seatNumber == p.seatNumber
      && r.0 == s.(bookings := s.bookings[id := b])
    ensures Valid(s) ==> Valid(r.0)
  {
    if id !in s.bookings then
      (s, Err(NotFound))
    else if p.flightId !in s.flights then
      (s, Err(NotFound))
    else
      var booking := s.bookings[id].(flightId := p.flightId, passengerName := p.passengerName,
                                     seatNumber := p.seatNumber);
      (s.(bookings := s.bookings[id := booking]), Ok(booking))
  }

  /**
   * `delete_booking`: removes an existing booking and gives its seat back to
   * its flight; a flight that no longer exists is skipped without error.
   */
  function DeleteBooking(s: State, id: nat): (r: (State, Result<(), Error>))
    ensures r.1.Ok? <==> id in s.bookings
    ensures r.1.Err? ==> r.1.error == NotFound && r.0 == s
    ensures r.1.Ok? ==> r.0.bookings == s.bookings - {id}
    ensures r.0.flightIdCounter == s.flightIdCounter && r.0.bookingIdCounter == s.bookingIdCounter
    ensures Valid(s) && r.1.Ok? ==>
      var fid := s.bookings[id].flightId;
      && (fid !in s.flights ==> r.0.flights == s.flights)
      && (fid in s.flights ==>
            r.0.flights == s.flights[fid := s.flights[fid].(availableSeats := s.flights[fid].availableSeats + 1)])
      && Valid(r.0)
  {
    if id !in s.bookings then
      (s, Err(NotFound))
    else
      var booking := s.bookings[id];
      var flights :=
        if booking.flightId in s.flights then
          var flight := s.flights[booking.flightId];
          s.flights[flight.id := flight.(availableSeats := flight.availableSeats + 1)]
        else
          s.flights;
      (s.(flights := flights, bookings := s.bookings - {id}), Ok(()))
  }

  // ---------------------------------------------------------------------------
  // Round trip: a booking followed by its deletion

  /**
   * Booking a seat and then deleting that booking gives back the flights and
   * bookings exactly as they were; only the booking counter has moved on.
   */
  lemma BookThenDeleteRestores(s: State, p: FlightBookingPayload, now: nat)
    requires Valid(s)
    requires BookFlight(s, p, now).1.Ok?
    ensures var (mid, res) := BookFlight(s, p, now);
            var after := DeleteBooking(mid, res.value.id);
            && after.1 == Ok(())
            && SameRecords(after.0, s)
            && after.0.bookingIdCounter == s.bookingIdCounter + 1
            && after.0.flightIdCounter == s.flightIdCounter
  {
  }

  // ---------------------------------------------------------------------------
  // Seat accounting

  /** The ids of the bookings that reference flight `fid`. */
  ghost function BookingsOf(bookings: map<nat, Booking>, fid: nat): set<nat> {
    set k | k in bookings && bookings[k].flightId == fid
  }

  /** Seats still for sale plus seats held by bookings: what the flight was created with. */
  ghost function SeatAccount(s: State, fid: nat): nat
    requires fid in s.flights
  {
    s.flights[fid].availableSeats + |BookingsOf(s.bookings, fid)|
  }

  /** Storing a booking under an unused id adds one booking to its own flight and none to the others. */
  lemma InsertBookingCount(bookings: map<nat, Booking>, b: Booking, fid: nat)
    requires b.id !in bookings
    ensures |BookingsOf(bookings[b.id := b], fid)| == |BookingsOf(bookings, fid)| + if b.flightId == fid then 1 else 0
  {
    if b.flightId == fid {
      assert BookingsOf(bookings[b.id := b], fid) == BookingsOf(bookings, fid) + {b.id};
    } else {
      assert BookingsOf(bookings[b.id := b], fid) == BookingsOf(bookings, fid);
    }
  }

  /** Removing a booking takes one booking off its own flight and none off the others. */
  lemma RemoveBookingCount(bookings: map<nat, Booking>, id: nat, fid: nat)
    requires id in bookings
    ensures |BookingsOf(bookings - {id}, fid)| + (if bookings[id].flightId == fid then 1 else 0)
            == |BookingsOf(bookings, fid)|
  {
    if bookings[id].flightId == fid {
      assert BookingsOf(bookings, fid) == BookingsOf(bookings - {id}, fid) + {id};
    } else {
      assert BookingsOf(bookings - {id}, fid) == BookingsOf(bookings, fid);
    }
  }

  /**
   * A successful `book_flight` moves one seat from the flight's available
   * count to a new booking on that flight: for every flight, available seats
   * plus bookings held stays the same.
   */
  lemma BookFlightKeepsSeatAccount(s: State, p: FlightBookingPayload, now: nat, fid: nat)
    requires Valid(s) && fid in s.flights
    requires BookFlight(s, p, now).1.Ok?
    ensures fid in BookFlight(s, p, now).0.flights
    ensures SeatAccount(BookFlight(s, p, now).0, fid) == SeatAccount(s, fid)
  {
    var r := BookFlight(s, p, now);
    var b := r.1.value;
    InsertBookingCount(s.bookings, b, fid);
  }

  /**
   * A successful `delete_booking` gives the booking's seat back: for every
   * flight still present, available seats plus bookings held stays the same.
   */
  lemma DeleteBookingKeepsSeatAccount(s: State, id: nat, fid: nat)
    requires Valid(s) && fid in s.flights
    requires DeleteBooking(s, id).1.Ok?
    ensures fid in DeleteBooking(s, id).0.flights
    ensures SeatAccount(DeleteBooking(s, id).0, fid) == SeatAccount(s, fid)
  {
    RemoveBookingCount(s.bookings, id, fid);
  }

  /**
   * `book_flight` never looks at the seat number: on any valid store, two
   * bookings of the same seat on a flight with two seats left both succeed,
   * get distinct ids and are both stored.
   */
  lemma SameSeatBookedTwice(s: State, p: FlightBookingPayload, n1: nat, n2: nat)
    requires Valid(s) && p.flightId in s.flights && s.flights[p.flightId].availableSeats >= 2
    ensures var (s1, b1) := BookFlight(s, p, n1);
            var (s2, b2) := BookFlight(s1, p, n2);
            && b1.Ok? && b2.Ok? && b1.value.id != b2.value.id
            && b1.value.flightId == b2.value.flightId == p.flightId
            && b1.value.seatNumber == b2.value.seatNumber == p.seatNumber
            && b1.value.id in s2.bookings && b2.value.id in s2.bookings
  {
  }

  // ---------------------------------------------------------------------------
  // Sequences of calls

  /** One call to an update entry point; the host runs them one at a time. */
  datatype Request =
    | AddFlightCall(payload: FlightBookingPayload)
    | BookFlightCall(payload: FlightBookingPayload, now: nat)
    | UpdateFlightCall(id: nat, payload: FlightBookingPayload)
    | DeleteFlightCall(id: nat)
    | UpdateBookingCall(id: nat, payload: FlightBookingPayload)
    | DeleteBookingCall(id: nat)

  function Apply(s: State, req: Request): State {
    match req
    case AddFlightCall(p) => AddFlight(s, p).0
    case BookFlightCall(p, now) => BookFlight(s, p, now).0
    case UpdateFlightCall(id, p) => UpdateFlight(s, id, p).0
    case DeleteFlightCall(id) => DeleteFlight(s, id).0
    case UpdateBookingCall(id, p) => UpdateBooking(s, id, p).0
    case DeleteBookingCall(id) => DeleteBooking(s, id).0
  }

  function Run(s: State, reqs: seq<Request>): State
    decreases |reqs|
  {
    if reqs == [] then s else Run(Apply(s, reqs[0]), reqs[1..])
  }

  /**
   * Whatever calls are made, the store stays valid, so every id the counters
   * hand out is unused, and the counters never go back.
   */
  lemma {:induction false} RunKeepsValid(s: State, reqs: seq<Request>)
    requires Valid(s)
    ensures Valid(Run(s, reqs))
    ensures Run(s, reqs).flightIdCounter >= s.flightIdCounter
    ensures Run(s, reqs).bookingIdCounter >= s.bookingIdCounter
    decreases |reqs|
  {
    if reqs != [] {
      RunKeepsValid(Apply(s, reqs[0]), reqs[1..]);
    }
  }

  /** Every state the canister can reach from its initial state is valid. */
  lemma {:induction false} ReachableValid(reqs: seq<Request>)
    ensures Valid(Run(Init, reqs))
  {
    RunKeepsValid(Init, reqs);
  }
}

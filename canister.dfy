/**
 * The canister's state as the source keeps it: two maps and two counters that
 * every update entry point changes in place (src/icp_rust_boilerplate_backend/src/lib.rs).
 * Each mutating method is tied to its transition function in module
 * Reservations, where the properties of the transitions are proved.
 */
module Canister {
  import opened Results
  import opened Reservations

  class Store {
    var flights: map<nat, Flight>
    var bookings: map<nat, Booking>
    var flightIdCounter: nat
    var bookingIdCounter: nat

    /** The stored state as a value. */
    function Snapshot(): State
      reads this
    {
      State(flights, bookings, flightIdCounter, bookingIdCounter)
    }

    ghost predicate Valid()
      reads this
    {
      Reservations.Valid(Snapshot())
    }

    /** Fresh canister memory: both counters at 0, both maps empty. */
    constructor ()
      ensures Valid() && Snapshot() == Init
    {
      flights, bookings := map[], map[];
      flightIdCounter, bookingIdCounter := 0, 0;
    }

    /** `get_flight`: the stored flight, or NotFound. */
    method GetFlight(id: nat) returns (r: Result<Flight, Error>)
      ensures r.Ok? <==> id in flights
      ensures r.Ok? ==> r.value == flights[id]
      ensures r.Err? ==> r.error == NotFound
    {
      if id in flights {
        r := Ok(flights[id]);
      } else {
        r := Err(NotFound);
      }
    }

    /** `get_booking`: the stored booking, or NotFound. */
    method GetBooking(id: nat) returns (r: Result<Booking, Error>)
      ensures r.Ok? <==> id in bookings
      ensures r.Ok? ==> r.value == bookings[id]
      ensures r.Err? ==> r.error == NotFound
    {
      if id in bookings {
        r := Ok(bookings[id]);
      } else {
        r := Err(NotFound);
      }
    }

    /** `check_flight_availability`: the flight's available seat count, or NotFound. */
    method CheckFlightAvailability(id: nat) returns (r: Result<nat, Error>)
      ensures r.Ok? <==> id in flights
      ensures r.Ok? ==> r.value == flights[id].availableSeats
      ensures r.Err? ==> r.error == NotFound
    {
      var found := GetFlight(id);
      match found
      case Ok(flight) => r := Ok(flight.availableSeats);
      case Err(e) => r := Err(e);
    }

    /** `add_flight`: always succeeds (the source wraps the flight in `Some`). */
    method AddFlight(p: FlightBookingPayload) returns (flight: Flight)
      requires Valid()
      modifies this
      ensures Valid()
      ensures (Snapshot(), flight) == Reservations.AddFlight(old(Snapshot()), p)
    {
      var id := flightIdCounter;
      flightIdCounter := id + 1;
      flight := Flight(id, p.airline, p.destination, p.departureTime, p.availableSeats);
      flights := flights[id := flight];
    }

    /** `book_flight`, with the host clock passed in as `now`. */
    method BookFlight(p: FlightBookingPayload, now: nat) returns (r: Result<Booking, Error>)
      requires Valid()
      modifies this
      ensures Valid()
      ensures (Snapshot(), r) == Reservations.BookFlight(old(Snapshot()), p, now)
    {
      var found := GetFlight(p.flightId);
      if found.Err? {
        return Err(NotFound);
      }
      var flight := found.value;
      if flight.availableSeats == 0 {
        return Err(NoSeatsAvailable);
      }
      var updated := flight.(availableSeats := flight.availableSeats - 1);
      flights := flights[flight.id := updated];
      var id := bookingIdCounter;
      bookingIdCounter := id + 1;
      var booking := Booking(id, p.flightId, p.passengerName, p.seatNumber, now);
      bookings := bookings[id := booking];
      r := Ok(booking);
    }

    /** `update_flight`. */
    method UpdateFlight(id: nat, p: FlightBookingPayload) returns (r: Result<Flight, Error>)
      requires Valid()
      modifies this
      ensures Valid()
      ensures (Snapshot(), r) == Reservations.UpdateFlight(old(Snapshot()), id, p)
    {
      var found := GetFlight(id);
      if found.Err? {
        return Err(NotFound);
      }
      var flight := found.value;
      flight := flight.(airline := p.airline, destination := p.destination);
      flight := flight.(departureTime := p.departureTime, availableSeats := p.availableSeats);
      flights := flights[id := flight];
      r := Ok(flight);
    }

    /** `delete_flight`. */
    method DeleteFlight(id: nat) returns (r: Result<(), Error>)
      requires Valid()
      modifies this
      ensures Valid()
      ensures (Snapshot(), r) == Reservations.DeleteFlight(old(Snapshot()), id)
    {
      if id in flights {
        flights := flights - {id};
        r := Ok(());
      } else {
        r := Err(NotFound);
      }
    }

    /** `update_booking`. */
    method UpdateBooking(id: nat, p: FlightBookingPayload) returns (r: Result<Booking, Error>)
      requires Valid()
      modifies this
      ensures Valid()
      ensures (Snapshot(), r) == Reservations.UpdateBooking(old(Snapshot()), id, p)
    {
      var found := GetBooking(id);
      if found.Err? {
        return Err(NotFound);
      }
      var target := GetFlight(p.flightId);
      if target.Err? {
        return Err(NotFound);
      }
      var booking := found.value;
      booking := booking.(flightId := p.flightId, passengerName := p.passengerName);
      booking := booking.(seatNumber := p.seatNumber);
      bookings := bookings[id := booking];
      r := Ok(booking);
    }

    /** `delete_booking`: the seat goes back first, then the booking is removed. */
    method DeleteBooking(id: nat) returns (r: Result<(), Error>)
      requires Valid()
      modifies this
      ensures Valid()
      ensures (Snapshot(), r) == Reservations.DeleteBooking(old(Snapshot()), id)
    {
      var found := GetBooking(id);
      if found.Err? {
        return Err(NotFound);
      }
      var booking := found.value;
      if booking.flightId in flights {
        var flight := flights[booking.flightId];
        flights := flights[flight.id := flight.(availableSeats := flight.availableSeats + 1)];
      }
      bookings := bookings - {id};
      r := Ok(());
    }
  }

  /**
   * A client of the store: three seats, three bookings, a fourth refused;
   * deleting one booking frees one seat again.
   */
  method ThreeSeatScenario(now: nat) {
    var store := new Store();
    var flight := store.AddFlight(FlightBookingPayload(0, "Air", "Lima", now + 10, 3, "", 0));
    var id := flight.id;
    var p := FlightBookingPayload(id, "", "", 0, 0, "Ann", 0);
    var b0 := store.BookFlight(p, now);
    assert b0.Ok? && store.flights[id].availableSeats == 2;
    var b1 := store.BookFlight(p.(seatNumber := 1), now);
    assert b1.Ok? && store.flights[id].availableSeats == 1;
    var b2 := store.BookFlight(p.(seatNumber := 2), now);
    assert b2.Ok? && store.flights[id].availableSeats == 0;
    var left := store.CheckFlightAvailability(id);
    assert left == Ok(0);
    var b3 := store.BookFlight(p, now);
    assert b3 == Err(NoSeatsAvailable);
    var gone := store.DeleteBooking(b1.value.id);
    assert gone == Ok(());
    left := store.CheckFlightAvailability(id);
    assert left == Ok(1);
  }
}

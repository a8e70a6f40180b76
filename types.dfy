/**
 * The richer records of src/icp_rust_boilerplate_backend/src/types.rs, the ones the
 * validation and authorization helpers work on: a flight knows its owning
 * agent, its capacity and its booked seats; a booking knows its booker.
 */
module Types {

  datatype Flight = Flight(
    id: nat,
    airline: string,
    agentPrincipal: string,
    destination: string,
    departureTime: nat,
    availableSeats: nat,
    totalSeats: nat,
    seatsBooked: seq<nat>)

  datatype Booking = Booking(
    id: nat,
    flightId: nat,
    bookerPrincipal: string,
    passengerName: string,
    seatNumber: nat,
    bookingTime: nat)

  datatype BookingPayload = BookingPayload(
    flightId: nat,
    passengerName: string,
    seatNumber: nat)

  datatype FlightBookingPayload = FlightBookingPayload(
    airline: string,
    destination: string,
    departureTime: nat,
    availableSeats: nat)

  /** One kind per message the helpers push onto their error list, in the order they check. */
  datatype Violation =
    | BlankAirline
    | BlankDestination
    | ZeroSeats
    | DepartureTooSoon
    | NoAvailableSeats
    | BookingClosed
    | BlankPassengerName
    | SeatOutOfRange
    | SeatAlreadyBooked

  /** The error enum of types.rs; message texts are not modelled, `Error { msg }` is `Other`. */
  datatype Error =
    | NotFound
    | NoSeatsAvailable
    | InvalidPayload(errors: seq<Violation>)
    | NotAgent
    | NotBooker
    | Other
}

/**
 * The validation and authorization helpers of
 * src/icp_rust_boilerplate_backend/src/helpers.rs, over the records of module Types.
 * The host calls `caller()` and `time()` become the parameters `caller` and `now`.
 */
module Helpers {
  import opened Results
  import opened Types

  /** A new flight must depart at least this many nanoseconds from now (2 h 5 min). */
  const MIN_DEPARTURE_LEAD: nat := 7_500_000_000_000

  /** Bookings close this many nanoseconds before departure (2 h). */
  const BOOKING_CUTOFF: nat := 7_200_000_000_000

  // ---------------------------------------------------------------------------
  // Authorization

  /** `is_caller_agent_principal`: only the flight's agent passes. */
  function IsCallerAgentPrincipal(flight: Flight, caller: string): (r: Result<(), Error>)
    ensures r.Ok? <==> flight.agentPrincipal == caller
    ensures r.Err? ==> r.error == NotAgent
  {
    if flight.agentPrincipal != caller then Err(NotAgent) else Ok(())
  }

  /** `is_caller_booker_principal`: only the booking's booker passes. */
  function IsCallerBookerPrincipal(booking: Booking, caller: string): (r: Result<(), Error>)
    ensures r.Ok? <==> booking.bookerPrincipal == caller
    ensures r.Err? ==> r.error == NotBooker
  {
    if booking.bookerPrincipal != caller then Err(NotBooker) else Ok(())
  }

  // ---------------------------------------------------------------------------
  // Blank strings

  /** Rust's `char::is_whitespace`: the Unicode White_Space property. */
  predicate IsWhitespace(c: char) {
    || '\U{9}' <= c <= '\U{D}'
    || c == '\U{20}'
    || c == '\U{85}'
    || c == '\U{A0}'
    || c == '\U{1680}'
    || '\U{2000}' <= c <= '\U{200A}'
    || c == '\U{2028}'
    || c == '\U{2029}'
    || c == '\U{202F}'
    || c == '\U{205F}'
    || c == '\U{3000}'
  }

  /** Drops the leading whitespace. */
  function TrimStart(s: string): string {
    if |s| > 0 && IsWhitespace(s[0]) then TrimStart(s[1..]) else s
  }

  /** Drops the trailing whitespace. */
  function TrimEnd(s: string): string {
    if |s| > 0 && IsWhitespace(s[|s| - 1]) then TrimEnd(s[..|s| - 1]) else s
  }

  /** What `TrimStart` leaves is a suffix that starts with a non-blank character, and all it drops is blank. */
  lemma {:induction false} TrimStartDropsLeadingBlanks(s: string)
    ensures |TrimStart(s)| <= |s| && TrimStart(s) == s[|s| - |TrimStart(s)|..]
    ensures forall i :: 0 <= i < |s| - |TrimStart(s)| ==> IsWhitespace(s[i])
    ensures TrimStart(s) == [] || !IsWhitespace(TrimStart(s)[0])
  {
    if |s| > 0 && IsWhitespace(s[0]) {
      TrimStartDropsLeadingBlanks(s[1..]);
      assert s[1..][|s| - 1 - |TrimStart(s)|..] == s[|s| - |TrimStart(s)|..];
      forall i | 0 <= i < |s| - |TrimStart(s)|
        ensures IsWhitespace(s[i])
      {
        if i > 0 { assert s[i] == s[1..][i - 1]; }
      }
    }
  }

  /** What `TrimEnd` leaves is a prefix that ends with a non-blank character, and all it drops is blank. */
  lemma {:induction false} TrimEndDropsTrailingBlanks(s: string)
    ensures |TrimEnd(s)| <= |s| && TrimEnd(s) == s[..|TrimEnd(s)|]
    ensures forall i :: |TrimEnd(s)| <= i < |s| ==> IsWhitespace(s[i])
    ensures TrimEnd(s) == [] || !IsWhitespace(TrimEnd(s)[|TrimEnd(s)| - 1])
  {
    if |s| > 0 && IsWhitespace(s[|s| - 1]) {
      TrimEndDropsTrailingBlanks(s[..|s| - 1]);
      assert s[..|s| - 1][..|TrimEnd(s)|] == s[..|TrimEnd(s)|];
      forall i | |TrimEnd(s)| <= i < |s|
        ensures IsWhitespace(s[i])
      {
        if i < |s| - 1 { assert s[i] == s[..|s| - 1][i]; }
      }
    }
  }

  /**
   * Rust's `str::trim`: the result is the input with its leading and trailing
   * whitespace removed, and nothing else; it neither starts nor ends with whitespace.
   */
  function Trim(s: string): (r: string)
    ensures r == [] || (!IsWhitespace(r[0]) && !IsWhitespace(r[|r| - 1]))
    ensures exists i :: 0 <= i <= |s| - |r| && r == s[i..][..|r|]
                        && (forall k :: 0 <= k < i ==> IsWhitespace(s[k]))
                        && (forall k :: i + |r| <= k < |s| ==> IsWhitespace(s[k]))
  {
    TrimStartDropsLeadingBlanks(s);
    TrimEndDropsTrailingBlanks(TrimStart(s));
    var i := |s| - |TrimStart(s)|;
    var r := TrimEnd(TrimStart(s));
    assert forall k :: i + |r| <= k < |s| ==> IsWhitespace(s[k]) by {
      forall k | i + |r| <= k < |s|
        ensures IsWhitespace(s[k])
      {
        assert s[k] == TrimStart(s)[k - i];
      }
    }
    assert r == TrimStart(s)[..|r|] == s[i..][..|r|];
    assert forall k :: 0 <= k < i ==> IsWhitespace(s[k]);
    r
  }

  /** `is_invalid_string`: blank once trimmed, that is, whitespace and nothing else. */
  function IsInvalidString(s: string): (b: bool)
    ensures b <==> forall i :: 0 <= i < |s| ==> IsWhitespace(s[i])
  {
    TrimStartDropsLeadingBlanks(s);
    TrimEndDropsTrailingBlanks(TrimStart(s));
    Trim(s) == []
  }

  // ---------------------------------------------------------------------------
  // Error lists

  /** Position of each kind in the order the helpers check. */
  function Rank(v: Violation): nat {
    match v
    case BlankAirline => 0
    case BlankDestination => 1
    case ZeroSeats => 2
    case DepartureTooSoon => 3
    case NoAvailableSeats => 4
    case BookingClosed => 5
    case BlankPassengerName => 6
    case SeatOutOfRange => 7
    case SeatAlreadyBooked => 8
  }

  /** The errors appear in checking order, each at most once. */
  ghost predicate Ordered(errors: seq<Violation>) {
    forall i, j :: 0 <= i < j < |errors| ==> Rank(errors[i]) < Rank(errors[j])
  }

  function Count(failed: bool): nat {
    if failed then 1 else 0
  }

  /** The entry a check pushes: its kind if it failed, nothing otherwise. */
  function Pick(failed: bool, v: Violation): seq<Violation> {
    if failed then [v] else []
  }

  /**
   * Appending one check's entry to a list of earlier kinds keeps the list in
   * checking order, adds the kind exactly when the check failed, and adds one
   * to the length exactly then.
   */
  lemma AppendPick(errors: seq<Violation>, failed: bool, v: Violation)
    requires Ordered(errors) && forall u :: u in errors ==> Rank(u) < Rank(v)
    ensures Ordered(errors + Pick(failed, v))
    ensures forall u :: u in errors + Pick(failed, v) <==> u in errors || (failed && u == v)
    ensures |errors + Pick(failed, v)| == |errors| + Count(failed)
  {
  }

  /** The first entry of a list in checking order has the least rank. */
  lemma FirstHasLeastRank(errors: seq<Violation>, v: Violation)
    requires Ordered(errors) && v in errors
    ensures Rank(errors[0]) <= Rank(v)
  {
  }

  /**
   * Which kinds an error list holds decides the list once it is in checking
   * order; so a validator's contract below pins its error list down exactly.
   */
  lemma {:induction false} OrderedListsWithSameKindsAgree(a: seq<Violation>, b: seq<Violation>)
    requires Ordered(a) && Ordered(b)
    requires forall v :: v in a <==> v in b
    ensures a == b
    decreases |a|
  {
    assert |b| > 0 ==> b[0] in a;
    if a != [] {
      assert a[0] in b;
      assert b != [];
      assert b[0] in a;
      FirstHasLeastRank(a, b[0]);
      FirstHasLeastRank(b, a[0]);
      assert a[0] == b[0];
      forall v
        ensures v in a[1..] <==> v in b[1..]
      {
        if v in a[1..] {
          var k :| 1 <= k < |a| && a[k] == v;
          assert Rank(a[0]) < Rank(a[k]);
          assert v in b && v != b[0];
          var m :| 0 <= m < |b| && b[m] == v;
          assert m != 0;
          assert v == b[1..][m - 1];
        }
        if v in b[1..] {
          var k :| 1 <= k < |b| && b[k] == v;
          assert Rank(b[0]) < Rank(b[k]);
          assert v in a && v != a[0];
          var m :| 0 <= m < |a| && a[m] == v;
          assert m != 0;
          assert v == a[1..][m - 1];
        }
      }
      OrderedListsWithSameKindsAgree(a[1..], b[1..]);
      assert a == [a[0]] + a[1..] && b == [b[0]] + b[1..];
    }
  }

  // ---------------------------------------------------------------------------
  // Flight payloads

  /**
   * `validate_flight_payload`: every rule is checked and every failure is
   * reported, airline, destination, seats and departure time in that order.
   */
  method ValidateFlightPayload(p: FlightBookingPayload, now: nat) returns (r: Result<(), Error>)
    ensures r.Ok? <==>
      && !IsInvalidString(p.airline)
      && !IsInvalidString(p.destination)
      && p.availableSeats != 0
      && p.departureTime >= now + MIN_DEPARTURE_LEAD
    ensures r.Err? ==> r.error.InvalidPayload? && Ordered(r.error.errors)
    ensures r.Err? ==>
      var errors := r.error.errors;
      && (BlankAirline in errors <==> IsInvalidString(p.airline))
      && (BlankDestination in errors <==> IsInvalidString(p.destination))
      && (ZeroSeats in errors <==> p.availableSeats == 0)
      && (DepartureTooSoon in errors <==> p.departureTime < now + MIN_DEPARTURE_LEAD)
      && (forall v :: v in errors ==> Rank(v) < 4)
      && |errors| == Count(IsInvalidString(p.airline)) + Count(IsInvalidString(p.destination))
                     + Count(p.availableSeats == 0) + Count(p.departureTime < now + MIN_DEPARTURE_LEAD)
  {
    var blankAirline := IsInvalidString(p.airline);
    var blankDestination := IsInvalidString(p.destination);
    var errors: seq<Violation> := [];
    if blankAirline {
      errors := errors + [BlankAirline];
    }
    assert errors == Pick(blankAirline, BlankAirline);
    if blankDestination {
      errors := errors + [BlankDestination];
    }
    ghost var sofar := Pick(blankAirline, BlankAirline) + Pick(blankDestination, BlankDestination);
    assert errors == sofar;
    if p.availableSeats == 0 {
      errors := errors + [ZeroSeats];
    }
    sofar := sofar + Pick(p.availableSeats == 0, ZeroSeats);
    assert errors == sofar;
    var minAllowedTime := now + MIN_DEPARTURE_LEAD;
    if p.departureTime < minAllowedTime {
      errors := errors + [DepartureTooSoon];
    }
    sofar := sofar + Pick(p.departureTime < minAllowedTime, DepartureTooSoon);
    assert errors == sofar;
    FourChecksReported(blankAirline, blankDestination, p.availableSeats == 0, p.departureTime < minAllowedTime);
    if errors == [] {
      r := Ok(());
    } else {
      r := Err(InvalidPayload(errors));
    }
  }

  /** The error list `validate_flight_payload` builds from the outcomes of its four checks. */
  lemma FourChecksReported(airline: bool, destination: bool, seats: bool, time: bool)
    ensures var errors := Pick(airline, BlankAirline) + Pick(destination, BlankDestination)
                          + Pick(seats, ZeroSeats) + Pick(time, DepartureTooSoon);
      && Ordered(errors)
      && (errors == [] <==> !airline && !destination && !seats && !time)
      && (BlankAirline in errors <==> airline)
      && (BlankDestination in errors <==> destination)
      && (ZeroSeats in errors <==> seats)
      && (DepartureTooSoon in errors <==> time)
      && (forall v :: v in errors ==> Rank(v) < 4)
      && |errors| == Count(airline) + Count(destination) + Count(seats) + Count(time)
  {
    AppendPick([], airline, BlankAirline);
    var e1 := [] + Pick(airline, BlankAirline);
    AppendPick(e1, destination, BlankDestination);
    var e2 := e1 + Pick(destination, BlankDestination);
    AppendPick(e2, seats, ZeroSeats);
    var e3 := e2 + Pick(seats, ZeroSeats);
    AppendPick(e3, time, DepartureTooSoon);
    assert e1 == Pick(airline, BlankAirline);
  }

  // ---------------------------------------------------------------------------
  // Booking payloads

  /** The seat search of `validate_booking_payload` (`seats_booked.iter().find(..)`). */
  method FindBookedSeat(seatsBooked: seq<nat>, seat: nat) returns (found: bool)
    ensures found <==> seat in seatsBooked
  {
    var i := 0;
    while i < |seatsBooked|
      invariant 0 <= i <= |seatsBooked|
      invariant seat !in seatsBooked[..i]
    {
      if seatsBooked[i] == seat {
        return true;
      }
      i := i + 1;
    }
    assert seatsBooked[..i] == seatsBooked;
    found := false;
  }

  /** Bookings are still open: time is strictly before departure minus the cutoff. */
  predicate BookingOpen(flight: Flight, now: nat) {
    now + BOOKING_CUTOFF < flight.departureTime
  }

  /**
   * `validate_booking_payload`: a full flight and a closed booking window are
   * each reported alone; otherwise passenger name, seat range and seat
   * availability are all checked and every failure is reported, in that order.
   * A flight with seats left must depart no earlier than the cutoff itself, or
   * the source's `departure_time - TWO_HOURS_NANOSECONDS` underflows; a full
   * flight is rejected before that subtraction, whatever its departure time.
   */
  method ValidateBookingPayload(p: BookingPayload, flight: Flight, now: nat) returns (r: Result<(), Error>)
    requires flight.availableSeats != 0 ==> flight.departureTime >= BOOKING_CUTOFF
    ensures flight.availableSeats == 0 ==> r == Err(InvalidPayload([NoAvailableSeats]))
    ensures flight.availableSeats != 0 && !BookingOpen(flight, now) ==> r == Err(InvalidPayload([BookingClosed]))
    ensures r.Ok? <==>
      && flight.availableSeats != 0
      && BookingOpen(flight, now)
      && !IsInvalidString(p.passengerName)
      && p.seatNumber < flight.totalSeats
      && p.seatNumber !in flight.seatsBooked
    ensures r.Err? ==> r.error.InvalidPayload? && Ordered(r.error.errors)
    ensures flight.availableSeats != 0 && BookingOpen(flight, now) && r.Err? ==>
      var errors := r.error.errors;
      && (BlankPassengerName in errors <==> IsInvalidString(p.passengerName))
      && (SeatOutOfRange in errors <==> p.seatNumber >= flight.totalSeats)
      && (SeatAlreadyBooked in errors <==> p.seatNumber in flight.seatsBooked)
      && (forall v :: v in errors ==> Rank(v) >= 6)
      && |errors| == Count(IsInvalidString(p.passengerName)) + Count(p.seatNumber >= flight.totalSeats)
                     + Count(p.seatNumber in flight.seatsBooked)
  {
    var errors: seq<Violation> := [];
    if flight.availableSeats == 0 {
      errors := errors + [NoAvailableSeats];
      assert errors == [NoAvailableSeats];
      return Err(InvalidPayload(errors));
    }
    var lastPossibleBookingTime := flight.departureTime - BOOKING_CUTOFF;
    if now >= lastPossibleBookingTime {
      errors := errors + [BookingClosed];
      assert errors == [BookingClosed];
      return Err(InvalidPayload(errors));
    }
    var blankName := IsInvalidString(p.passengerName);
    if blankName {
      errors := errors + [BlankPassengerName];
    }
    assert errors == Pick(blankName, BlankPassengerName);
    if p.seatNumber >= flight.totalSeats {
      errors := errors + [SeatOutOfRange];
    }
    ghost var sofar := Pick(blankName, BlankPassengerName) + Pick(p.seatNumber >= flight.totalSeats, SeatOutOfRange);
    assert errors == sofar;
    var isSeatBooked := FindBookedSeat(flight.seatsBooked, p.seatNumber);
    if isSeatBooked {
      errors := errors + [SeatAlreadyBooked];
    }
    sofar := sofar + Pick(isSeatBooked, SeatAlreadyBooked);
    assert errors == sofar;
    ThreeChecksReported(blankName, p.seatNumber >= flight.totalSeats, isSeatBooked);
    if errors == [] {
      r := Ok(());
    } else {
      r := Err(InvalidPayload(errors));
    }
  }

  /** A full flight is refused with the one no-seats error, even one whose departure time is below the cutoff. */
  method FullFlightRefusedAlone(now: nat) {
    var full := Flight(0, "A", "x", "D", 5, 0, 3, [0, 1, 2]);
    var r := ValidateBookingPayload(BookingPayload(0, "Ann", 1), full, now);
    assert r == Err(InvalidPayload([NoAvailableSeats]));
  }

  /** The error list `validate_booking_payload` builds from the outcomes of its last three checks. */
  lemma ThreeChecksReported(name: bool, range: bool, booked: bool)
    ensures var errors := Pick(name, BlankPassengerName) + Pick(range, SeatOutOfRange)
                          + Pick(booked, SeatAlreadyBooked);
      && Ordered(errors)
      && (errors == [] <==> !name && !range && !booked)
      && (BlankPassengerName in errors <==> name)
      && (SeatOutOfRange in errors <==> range)
      && (SeatAlreadyBooked in errors <==> booked)
      && (forall v :: v in errors ==> Rank(v) >= 6)
      && |errors| == Count(name) + Count(range) + Count(booked)
  {
  }
}

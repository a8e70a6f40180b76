# Flight booking canister: a Dafny model

This project models the backend of a flight booking canister for the Internet
Computer. There are two halves, and the source keeps them separate.

* **The store** (`lib.rs`). Agents add flights and passengers book them. The
  canister keeps two stable maps, `FLIGHTS` and `BOOKINGS`, and two id
  counters, `FLIGHT_ID_COUNTER` and `BOOKING_ID_COUNTER`. The update entry
  points change all four in place.
  * `Canister.Store` is a class with those four fields and one method per entry
    point.
  * Each mutating method is tied to a transition function in module
    `Reservations`, over the value `State`. The lemmas about the store are
    proved there. They cover error paths that change nothing, a booking that
    takes exactly one seat, a deletion that gives it back, fresh ids from
    monotone counters, the store invariant over any sequence of calls, and a
    book-then-delete round trip.
* **The helpers** (`helpers.rs` over the records of `types.rs`). These are the
  authorization checks (caller equals owner), the blank-string test and the
  two payload validators. The validators collect every violated rule into a
  list. Booking has two checks that reject at once. The model returns the list
  as kinds (`Types.Violation`), and each validator's contract says which kinds
  the list holds, how many, and in what order.
  `Helpers.OrderedListsWithSameKindsAgree` shows that these facts fix the list
  exactly.

The host calls `ic_cdk::caller()` and `ic_cdk::api::time()` become parameters
(`caller`, `now`). Integers are unbounded `nat`s. Strings are `seq<char>`, and
whitespace is Rust's `char::is_whitespace`, the Unicode White_Space property.

In the source, `lib.rs` declares its own five-field `Flight` (no owner, no
seat list, no capacity) and its own two-variant `Error`. It never calls the
helpers. The records of `types.rs` and the helpers show what the service is
meant to do beyond that:

* authorization on every change (owner principals and their checks);
* a list of booked seats and a capacity (`seats_booked`, `total_seats`) kept
  in step with the live bookings.

The model follows the code, not that intent. `book_flight` never looks at the
seat number (`Reservations.SameSeatBookedTwice`). `update_flight` overwrites
the seat count. `update_booking` can move a booking to another flight without
moving its seat. `delete_flight` leaves that flight's bookings behind.

`Canister.ThreeSeatScenario` shows the class in use. It adds a flight with
three seats and books all three. A fourth booking is then refused with
NoSeatsAvailable. Deleting one booking brings the available count back to 1.

## Model

| member | source | states |
|---|---|---|
| `Reservations.AddFlight` | src/icp_rust_boilerplate_backend/src/lib.rs:117-136 | the new flight's id is the counter's previous value, the counter goes up by exactly one, the flight carries the payload's airline, destination, departure time and seat count and is stored under its id, nothing else changes, and on a valid store the id was unused and the store stays valid |
| `Reservations.BookFlight` | src/icp_rust_boilerplate_backend/src/lib.rs:138-185 | NotFound exactly when the flight is missing, NoSeatsAvailable exactly when it has no seats left, and either error leaves the whole state unchanged; on success the booking takes the booking counter's previous value as id, copies flight id, passenger name and seat from the payload, stamps the booking time, the counter goes up by one, and on a valid store the id was unused, the flight had a seat left and now has exactly one fewer with every other field and every other flight unchanged |
| `Reservations.UpdateFlight` | src/icp_rust_boilerplate_backend/src/lib.rs:196-218 | NotFound with no change exactly when the flight is missing; otherwise airline, destination, departure time and available seats come from the payload, the id is kept, only that map entry changes, and validity is kept |
| `Reservations.DeleteFlight` | src/icp_rust_boilerplate_backend/src/lib.rs:220-235 | succeeds exactly when the flight exists and then removes only it; NotFound changes nothing; bookings are never touched |
| `Reservations.UpdateBooking` | src/icp_rust_boilerplate_backend/src/lib.rs:237-268 | NotFound with no change exactly when the booking or the payload's flight is missing; otherwise only flight id, passenger name and seat number are overwritten, id and booking time are kept, and flights are untouched |
| `Reservations.DeleteBooking` | src/icp_rust_boilerplate_backend/src/lib.rs:270-294 | succeeds exactly when the booking exists, then removes it; on a valid store its flight gets exactly one seat back, or, when that flight is gone, no flight changes; NotFound changes nothing; counters never move |
| `Reservations.BookThenDeleteRestores` | src/icp_rust_boilerplate_backend/src/lib.rs:138-294 | on a valid store, a successful booking followed by deleting it leaves both maps exactly as before; only the booking counter has advanced |
| `Reservations.BookFlightKeepsSeatAccount` | src/icp_rust_boilerplate_backend/src/lib.rs:157-182 | for every flight, available seats plus the number of bookings on it are the same before and after a successful booking |
| `Reservations.DeleteBookingKeepsSeatAccount` | src/icp_rust_boilerplate_backend/src/lib.rs:273-286 | for every flight, available seats plus the number of bookings on it are the same before and after a successful booking deletion |
| `Reservations.SameSeatBookedTwice` | src/icp_rust_boilerplate_backend/src/lib.rs:150-179 | on any valid store, booking the same payload twice on a flight with at least two seats left succeeds both times, with distinct ids, the same flight and the same seat number, and both bookings stay stored: the seat number is never checked |
| `Reservations.RunKeepsValid` | src/icp_rust_boilerplate_backend/src/lib.rs:117-294 | any sequence of update calls keeps every record under its own id and every id below its counter, so every id handed out is unused, and neither counter ever decreases |
| `Reservations.ReachableValid` | src/icp_rust_boilerplate_backend/src/lib.rs:65-83 | every state reachable from the initial memory (both counters at 0, both maps empty) is valid |
| `Canister.Store.constructor` | src/icp_rust_boilerplate_backend/src/lib.rs:65-83 | fresh memory: both counters 0, both maps empty, invariant holds |
| `Canister.Store.GetFlight` | src/icp_rust_boilerplate_backend/src/lib.rs:97-105 | returns the stored flight exactly when the id is present, NotFound otherwise |
| `Canister.Store.GetBooking` | src/icp_rust_boilerplate_backend/src/lib.rs:107-115 | returns the stored booking exactly when the id is present, NotFound otherwise |
| `Canister.Store.CheckFlightAvailability` | src/icp_rust_boilerplate_backend/src/lib.rs:296-304 | returns the flight's available seats exactly when it exists, NotFound otherwise |
| `Canister.Store.AddFlight` | src/icp_rust_boilerplate_backend/src/lib.rs:117-136 | the fields and returned flight after the call are those `Reservations.AddFlight` gives for the fields before; the invariant is kept |
| `Canister.Store.BookFlight` | src/icp_rust_boilerplate_backend/src/lib.rs:138-185 | the fields and result after the call are those `Reservations.BookFlight` gives; the invariant is kept |
| `Canister.Store.UpdateFlight` | src/icp_rust_boilerplate_backend/src/lib.rs:196-218 | the fields and result after the call are those `Reservations.UpdateFlight` gives; the invariant is kept |
| `Canister.Store.DeleteFlight` | src/icp_rust_boilerplate_backend/src/lib.rs:220-235 | the fields and result after the call are those `Reservations.DeleteFlight` gives; the invariant is kept |
| `Canister.Store.UpdateBooking` | src/icp_rust_boilerplate_backend/src/lib.rs:237-268 | the fields and result after the call are those `Reservations.UpdateBooking` gives; the invariant is kept |
| `Canister.Store.DeleteBooking` | src/icp_rust_boilerplate_backend/src/lib.rs:270-294 | the fields and result after the call are those `Reservations.DeleteBooking` gives; the invariant is kept |
| `Helpers.IsCallerAgentPrincipal` | src/icp_rust_boilerplate_backend/src/helpers.rs:7-13 | Ok exactly when the flight's agent principal equals the caller, NotAgent otherwise |
| `Helpers.IsCallerBookerPrincipal` | src/icp_rust_boilerplate_backend/src/helpers.rs:15-21 | Ok exactly when the booking's booker principal equals the caller, NotBooker otherwise |
| `Helpers.TrimStartDropsLeadingBlanks` | src/icp_rust_boilerplate_backend/src/helpers.rs:23-25 | trimming the start leaves a suffix that is empty or starts with a non-whitespace character, and everything dropped is whitespace |
| `Helpers.TrimEndDropsTrailingBlanks` | src/icp_rust_boilerplate_backend/src/helpers.rs:23-25 | trimming the end leaves a prefix that is empty or ends with a non-whitespace character, and everything dropped is whitespace |
| `Helpers.Trim` | src/icp_rust_boilerplate_backend/src/helpers.rs:23-25 | the trimmed string is a contiguous slice of the input with only whitespace before and after it, and it neither starts nor ends with whitespace: exactly the leading and trailing whitespace is removed |
| `Helpers.IsInvalidString` | src/icp_rust_boilerplate_backend/src/helpers.rs:23-25 | true exactly when every character is whitespace, that is, when the string is empty after trimming both ends |
| `Helpers.ValidateFlightPayload` | src/icp_rust_boilerplate_backend/src/helpers.rs:28-50 | Ok exactly when airline and destination are non-blank, the seat count is non-zero and departure is at least 7 500 000 000 000 ns after now; otherwise InvalidPayload whose list holds each of the four kinds exactly when its rule fails, in checking order, with length the number of failed rules |
| `Helpers.FourChecksReported` | src/icp_rust_boilerplate_backend/src/helpers.rs:29-44 | the list built by the four conditional pushes is in checking order, holds each kind exactly when its check failed, is empty exactly when none failed, and its length is the number of failures |
| `Helpers.FindBookedSeat` | src/icp_rust_boilerplate_backend/src/helpers.rs:77-78 | the linear search finds the seat exactly when it is among the booked seats |
| `Helpers.ValidateBookingPayload` | src/icp_rust_boilerplate_backend/src/helpers.rs:52-89 | a flight with no seats left gives exactly the one error NoAvailableSeats; otherwise, at or after departure minus 7 200 000 000 000 ns, exactly the one error BookingClosed; otherwise InvalidPayload lists each of blank passenger name, seat not below total seats, seat already booked exactly when it holds, in that order, with length the number that hold; Ok exactly when none of the five conditions applies |
| `Helpers.ThreeChecksReported` | src/icp_rust_boilerplate_backend/src/helpers.rs:68-82 | the list built by the three conditional pushes is in checking order, holds each kind exactly when its check failed, is empty exactly when none failed, and its length is the number of failures |
| `Helpers.AppendPick` | src/icp_rust_boilerplate_backend/src/helpers.rs:30-32 | one conditional push keeps the list in checking order, adds its kind exactly when the check failed, and grows the list by exactly that |
| `Helpers.OrderedListsWithSameKindsAgree` | src/icp_rust_boilerplate_backend/src/helpers.rs:28-89 | two error lists in checking order that hold the same kinds are equal, so the validators' contracts determine their error lists |

## Left out

- Candid encoding and decoding, and the `Storable`/`BoundedStorable` impls (records of at most 1024 bytes). These are serialization done by libraries outside this model.
- The 1024-byte bound itself. The stable map's `insert` traps when a record's encoding is larger than `MAX_SIZE`, so a long airline, destination or passenger name makes `add_flight`, `book_flight`, `update_flight` or `update_booking` trap with nothing changed. The model lets these calls succeed.
- The `thread_local!` memory manager and the stable-structure set-up. They become the fields of `Canister.Store` and the value `Reservations.Init`.
- The failure of a stable-memory write behind `.expect("cannot increment … id counter")`. It would trap the call. The model treats the write as always succeeding.
- The platform difference between `#[ic_cdk::query]` and `#[ic_cdk::update]`. `update_flight` is marked query, so on the real platform its write would not persist. The model performs the write the body makes.
- `export_candid!` and the generated JavaScript/TypeScript declarations. They hold no logic.
- The text of every `format!` message. Errors are variant kinds, and the helpers' messages are `Types.Violation` kinds.
- `add_flight` returns `Option<Flight>`, which is always `Some`. `Canister.Store.AddFlight` returns the flight itself.
- Canister.Store.DeleteBooking: the flight's `available_seats + 1` is unbounded, so a u32 overflow is not modelled.
- Reservations.DeleteBooking: the same unbounded `available_seats + 1`.
- Reservations.AddFlight: the id counters' `current_value + 1` is unbounded, so a u64 overflow is not modelled. The same holds for `Reservations.BookFlight`.
- Helpers.ValidateFlightPayload: `time() + 7_500_000_000_000` is unbounded, so a u64 overflow is not modelled.
- Helpers.ValidateBookingPayload: requires `departure_time >= 7_200_000_000_000` only for a flight that has seats left. For such a flight below that bound, the source's `departure_time - TWO_HOURS_NANOSECONDS` underflows a u64, which panics or wraps depending on the build. A full flight is rejected before the subtraction, so any departure time is accepted for it. Any flight that passed `validate_flight_payload` satisfies the requirement.

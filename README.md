# Ticket booking table

A model of the reservation core of a small train-ticket booking service. The
service stores tickets in one database table, `tickets`. Four HTTP handlers
under `/booking` work on that table:

- book a seat, refusing a seat already held on the same train;
- list every ticket;
- cancel a ticket by id;
- reschedule a ticket by id, changing only its date and time.

The model has three modules:

- `Wrappers`: `Option` and `Result`.
- `Models`: the `Ticket` row and the constraints the table declares. These are
  the primary-key `id` and a `seat_number` that is unique over the whole
  table. `Insert` is the database's commit of a new row: it appends the row,
  or refuses it with the constraint it would break.
- `Booking`: the request bodies (`TicketRequest`, `TicketUpdate`), the
  handlers' lookup queries, and `TicketStore`. `TicketStore` is a class that
  holds the rows in insertion order plus the next id to assign. Its methods
  `Book`, `List`, `Delete` and `Update` are the four handlers. A handler's
  error response is an `Error` value instead of an HTTP status.

The invariant `TicketStore.Valid()` says the table constraints hold and that
every stored id is below `nextId`. The constructor establishes it, and
`Book`, `Delete` and `Update` keep it. These four also ensure
`NoDoubleBooking`: no two tickets share both seat and train. `List` changes
nothing.

The model follows the code as written:

- The booking conflict key is (seat, train). The date takes no part in it.
- The table-wide unique seat column is stricter than that key. A seat held on
  one train and requested on another passes the handler's check, and then the
  database refuses the insert (`CommitRejected(DuplicateSeat)`).
- There is no seat-format, time-format or not-in-the-past date validation.
- Listing has no pagination.
- Rescheduling re-checks nothing. It cannot break a constraint anyway, because
  it writes neither seat nor train.
- Cancelling an unknown id is not guarded by the handler.

## Model

| member | source | states |
|---|---|---|
| Models.IndexOfId | router/auth.py:78 | The id lookup finds the first row with that id, or nothing exactly when no row has it |
| Models.IndexOfSeat | models.py:11 | The seat lookup behind the unique seat column finds the first row holding that seat, or nothing exactly when the seat is free table-wide |
| Models.Insert | router/auth.py:59-60 | Commit refuses a duplicate id, otherwise a seat held anywhere in the table, otherwise appends the row; success keeps the table constraints |
| Models.RemoveAt | router/auth.py:71 | Removing row i leaves the rows before it and after it in order, one shorter |
| Models.RemovePreservesConstraints | models.py:8-11 | Removing a row keeps unique ids and unique seats |
| Models.TrainAndDateNotUnique | models.py:10-12 | Two rows with the same train and date are allowed when their ids and seats differ |
| Booking.NewTicket | router/auth.py:49-57 | The new row carries the assigned id and exactly the request's seven fields |
| Booking.Rescheduled | router/auth.py:83-84 | Rescheduling sets date and time to the update's values and leaves every other field as it was |
| Booking.FirstConflict | router/auth.py:42-45 | The conflict query finds the first ticket with equal seat and train, whatever its date, or nothing exactly when there is none |
| Booking.UniqueSeatsPreventDoubleBooking | models.py:11 | A table with unique seats has no two tickets sharing seat and train |
| Booking.ConflictCheckPreventsDoubleBooking | router/auth.py:42-47 | Appending a ticket that the conflict check passed keeps (seat, train) pairs distinct |
| Booking.RescheduleKeepsConstraints | router/auth.py:83-84 | Rescheduling one ticket keeps unique ids, unique seats and no double booking |
| Booking.CancelFreesSeat | router/auth.py:70-73 | After cancelling a ticket, its seat is held by no one, so the conflict check for its (seat, train) finds nothing |
| Booking.OtherTrainRejectedAtCommit | router/auth.py:42-60 | A seat held on another train passes the conflict check but is refused at commit as a duplicate seat |
| Booking.TicketStore.constructor | main.py:18 | The freshly created table is empty, valid, has no double booking, and assigns ids from 1 |
| Booking.TicketStore.Book | router/auth.py:40-62 | `SeatAlreadyReserved` iff the seat is held on the same train; commit refusal iff it is held only on other trains; on any failure nothing changes. Success iff the seat is free table-wide, and then exactly one ticket with a fresh id and the request's fields is appended after the unchanged old ones. Validity and no double booking are kept |
| Booking.TicketStore.List | router/auth.py:64-66 | Returns every stored ticket, unfiltered, in insertion order |
| Booking.TicketStore.Delete | router/auth.py:68-73 | A stored id: exactly that ticket is removed and the others keep their order, and the id is gone. An unknown id: an error and no change. Validity and no double booking are kept |
| Booking.TicketStore.Update | router/auth.py:75-87 | `TicketNotFound` iff the id is not stored, and then no change. Otherwise only that ticket's date and time are overwritten, and every other ticket and field stays the same. Validity and no double booking are kept |

## Left out

- HTTP routing, status codes and response messages. Outcomes are `Result` values with an `Error` kind instead.
- Database sessions (`SessionLocal`, `get_db`, the module-level `session`, `commit`, `refresh`, `close`). The table is an in-memory sequence; a refused commit leaves it unchanged.
- Concurrency, including the race between the conflict query and the insert. The model is sequential.
- Id assignment policy: the database module is not part of this model. The model assigns ids from a counter that starts at 1 and advances only on a successful insert.
- Booking.TicketStore.Delete: for an unknown id, the code passes `None` to the database library, which raises. The model reports `NoTicketToDelete` with the table unchanged and claims nothing more about that path.
- Parsing and validation of request bodies: `date` is a plain year/month/day triple with no calendar check. `time` and the other fields are strings stored as given.
- The train catalog (`router/trains.py`) and the application set-up (`main.py`): a static list, a read-only passthrough query and framework wiring, with no decision logic.

/** The `/booking` handlers: booking, listing, cancelling and rescheduling
    tickets against the `tickets` table, which a `TicketStore` holds in
    insertion order together with the next id the table will assign. */
module Booking {
  import opened Wrappers
  import opened Models

  /** Body of a booking request: every column of a ticket except its id. */
  datatype TicketRequest = TicketRequest(
    passengerName: string,
    trainNumber: string,
    seatNumber: string,
    date: Date,
    time: string,
    boardingStation: string,
    departureStation: string)

  /** Body of a reschedule request. */
  datatype TicketUpdate = TicketUpdate(date: Date, time: string)

  /** Outcomes other than success. `CommitRejected` is the database refusing
      the insert; `NoTicketToDelete` is a cancellation of an id that is not
      stored, which the handler does not guard. */
  datatype Error =
    | SeatAlreadyReserved
    | CommitRejected(violation: ConstraintViolation)
    | TicketNotFound
    | NoTicketToDelete

  /** The request a ticket was booked from. */
  function RequestOf(t: Ticket): TicketRequest
  {
    TicketRequest(t.passengerName, t.trainNumber, t.seatNumber, t.date, t.time,
                  t.boardingStation, t.departureStation)
  }

  /** The row built from a request once the table assigns it `id`. */
  function NewTicket(id: int, req: TicketRequest): (t: Ticket)
    ensures t.id == id && RequestOf(t) == req
  {
    Ticket(id, req.passengerName, req.trainNumber, req.seatNumber, req.date, req.time,
           req.boardingStation, req.departureStation)
  }

  /** A ticket moved to another date and time; nothing else about it changes. */
  function Rescheduled(t: Ticket, upd: TicketUpdate): (r: Ticket)
    ensures r.date == upd.date && r.time == upd.time
    ensures r.(date := t.date, time := t.time) == t
  {
    t.(date := upd.date, time := upd.time)
  }

  /** Some stored ticket holds this seat on this train, on whatever date. */
  ghost predicate HasSeatOnTrain(ts: seq<Ticket>, seat: string, train: string)
  {
    exists k :: 0 <= k < |ts| && ts[k].seatNumber == seat && ts[k].trainNumber == train
  }

  /** No two stored tickets share both seat and train. */
  ghost predicate NoDoubleBooking(ts: seq<Ticket>)
  {
    forall i, j :: 0 <= i < j < |ts| ==>
      ts[i].seatNumber != ts[j].seatNumber || ts[i].trainNumber != ts[j].trainNumber
  }

  /** The booking handler's conflict query: the first stored ticket with the
      requested seat and train, if any. The date takes no part. */
  function FirstConflict(ts: seq<Ticket>, seat: string, train: string): (r: Option<nat>)
    ensures r.Some? ==> r.value < |ts| && ts[r.value].seatNumber == seat && ts[r.value].trainNumber == train
    ensures r.Some? ==> forall k :: 0 <= k < r.value ==>
      ts[k].seatNumber != seat || ts[k].trainNumber != train
    ensures r.None? <==> !HasSeatOnTrain(ts, seat, train)
  {
    if |ts| == 0 then None
    else if ts[0].seatNumber == seat && ts[0].trainNumber == train then Some(0)
    else match FirstConflict(ts[1..], seat, train)
      case None =>
        assert forall k :: 1 <= k < |ts| ==> ts[k] == ts[1..][k - 1];
        None
      case Some(k) => Some(k + 1)
  }

  /** The table's unique seat column already rules out double booking. */
  lemma UniqueSeatsPreventDoubleBooking(ts: seq<Ticket>)
    requires UniqueSeats(ts)
    ensures NoDoubleBooking(ts)
  {
  }

  /** The handler's check alone keeps (seat, train) pairs distinct: a row
      appended after the check found no conflict cannot create a double booking. */
  lemma ConflictCheckPreventsDoubleBooking(ts: seq<Ticket>, t: Ticket)
    requires NoDoubleBooking(ts)
    requires FirstConflict(ts, t.seatNumber, t.trainNumber).None?
    ensures NoDoubleBooking(ts + [t])
  {
  }

  /** Rescheduling never writes the seat or the train (or the id), so it
      keeps every table constraint and the no-double-booking property. */
  lemma RescheduleKeepsConstraints(ts: seq<Ticket>, i: nat, upd: TicketUpdate)
    requires i < |ts| && TableConstraints(ts)
    ensures TableConstraints(ts[i := Rescheduled(ts[i], upd)])
    ensures NoDoubleBooking(ts[i := Rescheduled(ts[i], upd)])
  {
  }

  /** Once a ticket is cancelled, its seat is free on every train: the
      handler's check no longer finds a conflict for its (seat, train), and
      the unique seat column no longer blocks the insert. */
  lemma CancelFreesSeat(ts: seq<Ticket>, i: nat)
    requires i < |ts| && TableConstraints(ts)
    ensures !HasSeat(RemoveAt(ts, i), ts[i].seatNumber)
    ensures FirstConflict(RemoveAt(ts, i), ts[i].seatNumber, ts[i].trainNumber).None?
  {
  }

  /** A seat held on one train, requested on another: the handler's check
      lets the request through, and the database then refuses the insert. */
  lemma OtherTrainRejectedAtCommit(ts: seq<Ticket>, i: nat, id: int, req: TicketRequest)
    requires i < |ts| && TableConstraints(ts) && !HasId(ts, id)
    requires req.seatNumber == ts[i].seatNumber && req.trainNumber != ts[i].trainNumber
    ensures FirstConflict(ts, req.seatNumber, req.trainNumber).None?
    ensures Insert(ts, NewTicket(id, req)) == Failure(DuplicateSeat)
  {
  }

  /** The `tickets` table as the handlers see it. */
  class TicketStore {
    /** Stored tickets, in insertion order. */
    var tickets: seq<Ticket>
    /** The id the table assigns to the next inserted ticket. */
    var nextId: int

    /** The table's constraints hold and every stored id was assigned
        before `nextId`, so `nextId` is fresh. */
    ghost predicate Valid()
      reads this
    {
      && TableConstraints(tickets)
      && 1 <= nextId
      && forall k :: 0 <= k < |tickets| ==> tickets[k].id < nextId
    }

    /** An empty table; ids start at 1. */
    constructor ()
      ensures Valid() && NoDoubleBooking(tickets) && tickets == [] && nextId == 1
    {
      tickets := [];
      nextId := 1;
    }

    /** `book_ticket`: refuse a seat already held on the same train; otherwise
        insert a new ticket, which the database refuses when the seat is held
        on another train. */
    method Book(req: TicketRequest) returns (r: Result<int, Error>)
      requires Valid()
      modifies this
      ensures Valid() && NoDoubleBooking(tickets)
      ensures r == Failure(SeatAlreadyReserved)
        <==> HasSeatOnTrain(old(tickets), req.seatNumber, req.trainNumber)
      ensures r == Failure(CommitRejected(DuplicateSeat))
        <==> !HasSeatOnTrain(old(tickets), req.seatNumber, req.trainNumber)
             && HasSeat(old(tickets), req.seatNumber)
      ensures r.Success? <==> !HasSeat(old(tickets), req.seatNumber)
      ensures r.Failure? ==> tickets == old(tickets) && nextId == old(nextId)
      ensures r.Success? ==>
        && r.value == old(nextId)
        && !HasId(old(tickets), r.value)
        && tickets == old(tickets) + [NewTicket(r.value, req)]
        && nextId == old(nextId) + 1
    {
      var existing := FirstConflict(tickets, req.seatNumber, req.trainNumber);
      if existing.Some? {
        UniqueSeatsPreventDoubleBooking(tickets);
        return Failure(SeatAlreadyReserved);
      }
      var ticket := NewTicket(nextId, req);
      match Insert(tickets, ticket)
      case Failure(v) =>
        UniqueSeatsPreventDoubleBooking(tickets);
        r := Failure(CommitRejected(v));
      case Success(ts) =>
        UniqueSeatsPreventDoubleBooking(tickets);
        ConflictCheckPreventsDoubleBooking(tickets, ticket);
        tickets := ts;
        nextId := nextId + 1;
        r := Success(ticket.id);
    }

    /** `get_ticket_details`: every stored ticket, unfiltered, in insertion order. */
    method List() returns (r: seq<Ticket>)
      ensures |r| == |tickets|
      ensures forall k :: 0 <= k < |r| ==> r[k] == tickets[k]
    {
      r := tickets;
    }

    /** `delete_ticket`: remove the ticket with this id, keeping the others
        in order. The handler has no guard for an unknown id; the model
        reports that case as `NoTicketToDelete` and changes nothing. */
    method Delete(id: int) returns (r: Result<(), Error>)
      requires Valid()
      modifies this
      ensures Valid() && NoDoubleBooking(tickets) && nextId == old(nextId)
      ensures !HasId(old(tickets), id) ==> r == Failure(NoTicketToDelete) && tickets == old(tickets)
      ensures HasId(old(tickets), id) ==> r.Success?
      ensures HasId(old(tickets), id) ==>
        var i := IndexOfId(old(tickets), id).value;
        old(tickets)[i].id == id && tickets == RemoveAt(old(tickets), i)
      ensures !HasId(tickets, id)
    {
      var found := IndexOfId(tickets, id);
      if found.None? {
        UniqueSeatsPreventDoubleBooking(tickets);
        return Failure(NoTicketToDelete);
      }
      var i := found.value;
      RemovePreservesConstraints(tickets, i);
      var rest := RemoveAt(tickets, i);
      forall k | 0 <= k < |rest| ensures rest[k].id != id {
        if k < i {
          assert rest[k] == tickets[k];
        } else {
          assert rest[k] == tickets[k + 1];
        }
      }
      tickets := rest;
      UniqueSeatsPreventDoubleBooking(tickets);
      r := Success(());
    }

    /** `update_ticket`: not found for an unknown id; otherwise overwrite only
        the ticket's date and time. */
    method Update(id: int, upd: TicketUpdate) returns (r: Result<(), Error>)
      requires Valid()
      modifies this
      ensures Valid() && NoDoubleBooking(tickets) && nextId == old(nextId)
      ensures r == Failure(TicketNotFound) <==> !HasId(old(tickets), id)
      ensures !HasId(old(tickets), id) ==> tickets == old(tickets)
      ensures HasId(old(tickets), id) ==> r.Success?
      ensures HasId(old(tickets), id) ==>
        var i := IndexOfId(old(tickets), id).value;
        old(tickets)[i].id == id && tickets == old(tickets)[i := Rescheduled(old(tickets)[i], upd)]
    {
      var found := IndexOfId(tickets, id);
      if found.None? {
        UniqueSeatsPreventDoubleBooking(tickets);
        return Failure(TicketNotFound);
      }
      var i := found.value;
      RescheduleKeepsConstraints(tickets, i, upd);
      tickets := tickets[i := Rescheduled(tickets[i], upd)];
      r := Success(());
    }
  }

  /** A session of requests against a fresh table: book a seat, fail to book
      it again on the same train or on another one, cancel it, book it again. */
  method CancelThenRebook(req: TicketRequest, otherTrain: string)
    requires otherTrain != req.trainNumber
  {
    var store := new TicketStore();
    var first := store.Book(req);
    assert first == Success(1);
    assert store.tickets[0].seatNumber == req.seatNumber;
    var again := store.Book(req);
    assert again == Failure(SeatAlreadyReserved);
    var other := store.Book(req.(trainNumber := otherTrain));
    assert other == Failure(CommitRejected(DuplicateSeat));
    var cancelled := store.Delete(1);
    assert cancelled.Success?;
    assert store.tickets == [];
    var rebooked := store.Book(req);
    assert rebooked == Success(2);
  }
}

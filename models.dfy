/** The `tickets` table: the Ticket record and the constraints the database
    enforces on it (primary-key `id`, unique `seat_number`). */
module Models {
  import opened Wrappers

  /** A calendar date, stored as given; no calendar validity is enforced. */
  datatype Date = Date(year: int, month: int, day: int)

  /** One row of the `tickets` table. */
  datatype Ticket = Ticket(
    id: int,
    passengerName: string,
    trainNumber: string,
    seatNumber: string,
    date: Date,
    time: string,
    boardingStation: string,
    departureStation: string)

  /** Some row has this primary key. */
  ghost predicate HasId(ts: seq<Ticket>, id: int)
  {
    exists k :: 0 <= k < |ts| && ts[k].id == id
  }

  /** Some row holds this seat, on whatever train and date. */
  ghost predicate HasSeat(ts: seq<Ticket>, seat: string)
  {
    exists k :: 0 <= k < |ts| && ts[k].seatNumber == seat
  }

  /** `id` is the primary key: no two rows share it. */
  ghost predicate UniqueIds(ts: seq<Ticket>)
  {
    forall i, j :: 0 <= i < j < |ts| ==> ts[i].id != ts[j].id
  }

  /** `seat_number` is declared unique over the whole table. */
  ghost predicate UniqueSeats(ts: seq<Ticket>)
  {
    forall i, j :: 0 <= i < j < |ts| ==> ts[i].seatNumber != ts[j].seatNumber
  }

  /** Every constraint the table declares. `train_number`, `date` and the
      other columns carry none. */
  ghost predicate TableConstraints(ts: seq<Ticket>)
  {
    UniqueIds(ts) && UniqueSeats(ts)
  }

  /** Position of the first row with primary key `id`, if any. */
  function IndexOfId(ts: seq<Ticket>, id: int): (r: Option<nat>)
    ensures r.Some? ==> r.value < |ts| && ts[r.value].id == id
    ensures r.Some? ==> forall k :: 0 <= k < r.value ==> ts[k].id != id
    ensures r.None? <==> !HasId(ts, id)
  {
    if |ts| == 0 then None
    else if ts[0].id == id then Some(0)
    else match IndexOfId(ts[1..], id)
      case None =>
        assert forall k :: 1 <= k < |ts| ==> ts[k] == ts[1..][k - 1];
        None
      case Some(k) => Some(k + 1)
  }

  /** Position of the first row holding `seat`, if any. */
  function IndexOfSeat(ts: seq<Ticket>, seat: string): (r: Option<nat>)
    ensures r.Some? ==> r.value < |ts| && ts[r.value].seatNumber == seat
    ensures r.Some? ==> forall k :: 0 <= k < r.value ==> ts[k].seatNumber != seat
    ensures r.None? <==> !HasSeat(ts, seat)
  {
    if |ts| == 0 then None
    else if ts[0].seatNumber == seat then Some(0)
    else match IndexOfSeat(ts[1..], seat)
      case None =>
        assert forall k :: 1 <= k < |ts| ==> ts[k] == ts[1..][k - 1];
        None
      case Some(k) => Some(k + 1)
  }

  /** Why the database refuses to commit a new row. */
  datatype ConstraintViolation = DuplicatePrimaryKey | DuplicateSeat

  /** Committing a new row: the table appends it unless it would break the
      primary key or the unique seat column, in which case nothing changes. */
  function Insert(ts: seq<Ticket>, t: Ticket): (r: Result<seq<Ticket>, ConstraintViolation>)
    ensures r == Failure(DuplicatePrimaryKey) <==> HasId(ts, t.id)
    ensures r == Failure(DuplicateSeat) <==> !HasId(ts, t.id) && HasSeat(ts, t.seatNumber)
    ensures r.Success? <==> !HasId(ts, t.id) && !HasSeat(ts, t.seatNumber)
    ensures r.Success? ==> r.value == ts + [t]
    ensures r.Success? && TableConstraints(ts) ==> TableConstraints(r.value)
  {
    if IndexOfId(ts, t.id).Some? then Failure(DuplicatePrimaryKey)
    else if IndexOfSeat(ts, t.seatNumber).Some? then Failure(DuplicateSeat)
    else Success(ts + [t])
  }

  /** A row removed from the table, the others kept in order. */
  function RemoveAt(ts: seq<Ticket>, i: nat): (r: seq<Ticket>)
    requires i < |ts|
    ensures |r| == |ts| - 1
    ensures forall k :: 0 <= k < i ==> r[k] == ts[k]
    ensures forall k :: i <= k < |r| ==> r[k] == ts[k + 1]
  {
    ts[..i] + ts[i + 1..]
  }

  /** Removing a row keeps every constraint of the table. */
  lemma RemovePreservesConstraints(ts: seq<Ticket>, i: nat)
    requires i < |ts| && TableConstraints(ts)
    ensures TableConstraints(RemoveAt(ts, i))
  {
  }

  /** Neither `train_number` nor `date` is unique: two rows on the same
      train and date coexist as long as their ids and seats differ. */
  lemma TrainAndDateNotUnique(t: Ticket, otherId: int, otherSeat: string)
    requires otherId != t.id && otherSeat != t.seatNumber
    ensures var u := t.(id := otherId, seatNumber := otherSeat);
      u.trainNumber == t.trainNumber && u.date == t.date && TableConstraints([t, u])
  {
  }
}

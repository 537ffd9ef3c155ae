/** The hosted backend as the two components see it: the `reservations`
    table, and the log of every request sent to it (insert, update, function
    invocation). Whether a request succeeds is decided outside the model and
    passed in as an `Outcome`. */
module Backend {
  import opened Records

  /** The row the store creates for an insert: the store picks the id, and the
      `adminResponse` column starts out as the pending value. */
  function Created(id: nat, req: NewReservation): Reservation
  {
    Reservation(id, req.phone, req.message, req.reservationTime, req.partySize, Unconfirmed)
  }

  /** The rows the dashboard's snapshot query selects: `adminResponse` equal to
      the boolean `false`. */
  predicate Pending(r: Reservation)
  {
    r.adminResponse == Unconfirmed
  }

  /** `a` and `b` agree on every column except possibly `adminResponse`. */
  predicate SameExceptFlag(a: Reservation, b: Reservation)
  {
    a.(adminResponse := b.adminResponse) == b
  }

  /** The effect of `update({adminResponse: v}).eq("id", id)` on the table: only
      rows whose id is `id` change, and in them only `adminResponse`, which
      becomes `v`. Nothing is added or deleted. */
  function SetAdminResponse(rows: seq<Reservation>, id: nat, v: FlagValue): (r: seq<Reservation>)
    ensures |r| == |rows|
    ensures forall i :: 0 <= i < |rows| ==> SameExceptFlag(r[i], rows[i])
    ensures forall i :: 0 <= i < |rows| && rows[i].id == id ==> r[i].adminResponse == v
    ensures forall i :: 0 <= i < |rows| && rows[i].id != id ==> r[i] == rows[i]
  {
    if rows == [] then []
    else
      var head := if rows[0].id == id then rows[0].(adminResponse := v) else rows[0];
      [head] + SetAdminResponse(rows[1..], id, v)
  }

  /** After a confirmation, the confirmed rows no longer match the snapshot's
      filter, while every other row matches it exactly as before. */
  lemma ConfirmLeavesPendingFilter(rows: seq<Reservation>, id: nat)
    ensures var after := SetAdminResponse(rows, id, ConfirmedFlag);
      forall i :: 0 <= i < |rows| ==>
        (Pending(after[i]) <==> rows[i].id != id && Pending(rows[i]))
  {
  }

  /** No two rows share an id. */
  predicate UniqueIds(rows: seq<Reservation>)
  {
    forall i, j :: 0 <= i < j < |rows| ==> rows[i].id != rows[j].id
  }

  /** With ids unique, an update by id changes at most one row. */
  lemma UpdateChangesAtMostOneRow(rows: seq<Reservation>, id: nat, v: FlagValue)
    requires UniqueIds(rows)
    ensures var after := SetAdminResponse(rows, id, v);
      forall i, j :: 0 <= i < j < |rows| ==> after[i] == rows[i] || after[j] == rows[j]
  {
  }

  class Store {
    var rows: seq<Reservation>
    var nextId: nat
    var calls: seq<Call>

    /** Every id was handed out before and no two rows share one. */
    ghost predicate Valid()
      reads this
    {
      (forall i :: 0 <= i < |rows| ==> rows[i].id < nextId) && UniqueIds(rows)
    }

    constructor ()
      ensures Valid() && rows == [] && calls == []
    {
      rows, nextId, calls := [], 0, [];
    }

    /** `from("reservations").insert([req])`. */
    method Insert(req: NewReservation, outcome: Outcome) returns (ok: bool)
      requires Valid()
      modifies this
      ensures Valid()
      ensures ok <==> outcome == Success
      ensures calls == old(calls) + [InsertReservation(req)]
      ensures ok ==> rows == old(rows) + [Created(old(nextId), req)]
      ensures !ok ==> rows == old(rows) && nextId == old(nextId)
    {
      calls := calls + [InsertReservation(req)];
      ok := outcome == Success;
      if ok {
        rows := rows + [Created(nextId, req)];
        nextId := nextId + 1;
      }
    }

    /** `from("reservations").update({adminResponse: v}).eq("id", id)`. */
    method Update(id: nat, v: FlagValue, outcome: Outcome) returns (ok: bool)
      requires Valid()
      modifies this
      ensures Valid() && nextId == old(nextId)
      ensures ok <==> outcome == Success
      ensures calls == old(calls) + [UpdateAdminResponse(id, v)]
      ensures rows == if ok then SetAdminResponse(old(rows), id, v) else old(rows)
      ensures forall i, j :: 0 <= i < j < |rows| ==> rows[i] == old(rows)[i] || rows[j] == old(rows)[j]
    {
      UpdateChangesAtMostOneRow(rows, id, v);
      calls := calls + [UpdateAdminResponse(id, v)];
      ok := outcome == Success;
      if ok {
        rows := SetAdminResponse(rows, id, v);
      }
    }

    /** `functions.invoke(name, {body})`: the table is not touched. */
    method Invoke(name: string, body: FunctionBody, outcome: Outcome) returns (ok: bool)
      requires Valid()
      modifies this`calls
      ensures Valid()
      ensures ok <==> outcome == Success
      ensures calls == old(calls) + [InvokeFunction(name, body)]
    {
      calls := calls + [InvokeFunction(name, body)];
      ok := outcome == Success;
    }
  }
}

/** The admin dashboard's list of pending reservations and the three handlers
    that rewrite it: the snapshot result replaces it, a realtime INSERT event
    prepends to it, a confirmation removes the confirmed id from it after the
    store update and a best-effort notification. */
module AdminDashboard {
  import opened Records
  import opened Backend

  const ConfirmationMessage: string := "Your order has been confirmed!"

  /** The notification body sent to the requester on confirmation. */
  function ConfirmationNotice(phone: string): FunctionBody
  {
    FunctionBody(phone, ConfirmationMessage, None, false)
  }

  /** How many entries of `s` carry the id `id`. */
  function CountId(s: seq<Reservation>, id: nat): nat
  {
    if s == [] then 0 else (if s[0].id == id then 1 else 0) + CountId(s[1..], id)
  }

  /** `a` is `b` with some entries left out, the rest in their order. */
  ghost predicate IsSubsequence(a: seq<Reservation>, b: seq<Reservation>)
    decreases |b|
  {
    a == [] ||
    (b != [] && if a[0] == b[0] then IsSubsequence(a[1..], b[1..]) else IsSubsequence(a, b[1..]))
  }

  /** `prev.filter((r) => r.id !== id)`: no entry with that id is left, every
      other entry is kept as often as it occurred and in its order, and a list
      without that id comes back unchanged. */
  function WithoutId(s: seq<Reservation>, id: nat): (r: seq<Reservation>)
    ensures forall x :: x in r ==> x in s && x.id != id
    ensures forall x :: x in s && x.id != id ==> multiset(r)[x] == multiset(s)[x]
    ensures IsSubsequence(r, s)
    ensures (forall x :: x in s ==> x.id != id) ==> r == s
  {
    if s == [] then []
    else
      assert s == [s[0]] + s[1..];
      if s[0].id == id then WithoutId(s[1..], id)
      else [s[0]] + WithoutId(s[1..], id)
  }

  /** Exactly the entries with that id are dropped. */
  lemma {:induction false} WithoutIdLength(s: seq<Reservation>, id: nat)
    ensures |WithoutId(s, id)| == |s| - CountId(s, id)
  {
    if s != [] {
      WithoutIdLength(s[1..], id);
    }
  }

  /** Removing an id a second time changes nothing. */
  lemma WithoutIdIdempotent(s: seq<Reservation>, id: nat)
    ensures WithoutId(WithoutId(s, id), id) == WithoutId(s, id)
  {
  }

  class Dashboard {
    var reservations: seq<Reservation>

    constructor ()
      ensures reservations == []
    {
      reservations := [];
    }

    /** The snapshot query's callback: data replaces the list wholesale; an
        error is only logged. */
    method OnSnapshot(result: QueryResult)
      modifies this
      ensures result.Rows? ==> reservations == result.data
      ensures result.QueryFailure? ==> reservations == old(reservations)
    {
      if result.Rows? {
        reservations := result.data;
      }
    }

    /** The realtime INSERT callback: the new record goes in front, whatever
        its id or `adminResponse`, and the old entries follow unchanged. An id
        that is already listed is listed once more: nothing is de-duplicated. */
    method OnInsert(r: Reservation)
      modifies this
      ensures |reservations| == |old(reservations)| + 1
      ensures reservations[0] == r && reservations[1..] == old(reservations)
      ensures CountId(reservations, r.id) == CountId(old(reservations), r.id) + 1
      ensures forall k :: k != r.id ==> CountId(reservations, k) == CountId(old(reservations), k)
    {
      reservations := [r] + reservations;
      assert reservations[1..] == old(reservations);
    }

    /** `handleConfirm(id, phone)`: the update writes the text "true" to the
        rows with that id; if it fails nothing else happens. Otherwise the
        requester is notified once, and the entry is removed locally whether
        or not that notification went through. */
    method HandleConfirm(store: Store, id: nat, phone: string, updateOutcome: Outcome, notifyOutcome: Outcome)
      requires store.Valid()
      modifies this, store
      ensures store.Valid() && store.nextId == old(store.nextId)
      ensures updateOutcome == Failure ==>
        && store.calls == old(store.calls) + [UpdateAdminResponse(id, ConfirmedFlag)]
        && store.rows == old(store.rows)
        && reservations == old(reservations)
      ensures updateOutcome == Success ==>
        && store.calls == old(store.calls) +
             [UpdateAdminResponse(id, ConfirmedFlag), InvokeFunction(ReservationFunction, ConfirmationNotice(phone))]
        && store.rows == SetAdminResponse(old(store.rows), id, ConfirmedFlag)
        && reservations == WithoutId(old(reservations), id)
    {
      var updated := store.Update(id, ConfirmedFlag, updateOutcome);
      if !updated {
        return;
      }
      // a failed notification is only logged: no rollback, no early return
      var _ := store.Invoke(ReservationFunction, ConfirmationNotice(phone), notifyOutcome);
      reservations := WithoutId(reservations, id);
    }
  }
}

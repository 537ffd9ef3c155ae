/** The reservation intake form: its seven state fields, the phone validator
    and its two triggers (typing, leaving the field), the submit button's
    `disabled` rule and the submit handler's steps (guard, insert, notify
    staff, reset). React state updates take effect at the next render, so the
    handler's guard reads the error the render captured, not the one the
    validator has just computed. */
module ReservationForm {
  import opened Records
  import opened Phone
  import opened Backend

  /** The submit button's `disabled` expression. */
  function SubmitDisabled(
    phone: string, phoneError: string, date: Option<Date>, time: Option<Time>,
    partySize: Option<PartySize>, message: string, loading: bool): bool
  {
    phone == [] || phoneError != [] || date.None? || time.None? ||
    partySize.None? || message == [] || loading
  }

  /** The submit handler's early-return test, as written: on the error the
      render captured (`priorError`), not on a fresh validation. */
  function SubmitProceeds(priorError: string, date: Option<Date>, time: Option<Time>): bool
  {
    priorError == [] && date.Some? && time.Some?
  }

  /** The same test on the error `validatePhone(phone)` has just computed:
      what the handler evidently means to check. */
  function FreshSubmitProceeds(phone: string, date: Option<Date>, time: Option<Time>): bool
  {
    PhoneError(phone) == [] && date.Some? && time.Some?
  }

  /** Whenever the button is enabled, a submit gets past the handler's guard. */
  lemma EnabledSubmitProceeds(
    phone: string, phoneError: string, date: Option<Date>, time: Option<Time>,
    partySize: Option<PartySize>, message: string, loading: bool)
    requires !SubmitDisabled(phone, phoneError, date, time, partySize, message, loading)
    ensures SubmitProceeds(phoneError, date, time)
  {
  }

  /** An enabled button does not mean a valid phone: the error shown is only
      refreshed on blur, or while typing once an error is already shown. With
      "123" typed into a fresh form and no blur, the button is enabled and the
      guard lets the submit through. */
  lemma StaleErrorAdmitsInvalidPhone()
    ensures var date, time := Some(Date(2024, 6, 1)), Some(Time(19, 0));
      && !SubmitDisabled("123", [], date, time, Some(2), "Table for two", false)
      && SubmitProceeds([], date, time)
      && !IsPhoneNumber("123")
  {
  }

  /** The corrected guard only ever lets a phone number through. */
  lemma FreshGuardAdmitsOnlyPhoneNumbers(phone: string, date: Option<Date>, time: Option<Time>)
    requires FreshSubmitProceeds(phone, date, time)
    ensures IsPhoneNumber(phone) && date.Some? && time.Some?
  {
  }

  /** The notification body sent after a successful insert: the inserted
      values, flagged for the staff. */
  function StaffNotice(req: NewReservation): FunctionBody
  {
    FunctionBody(req.phone, req.message, Some(Details(req.reservationTime, req.partySize)), true)
  }

  class Form {
    var phone: string
    var phoneError: string
    var message: string
    var date: Option<Date>
    var time: Option<Time>
    var partySize: Option<PartySize>
    var loading: bool

    /** Every field at its initial value, which is also what the reset after
        a successful submit restores. */
    predicate IsReset()
      reads this
    {
      phone == [] && phoneError == [] && message == [] && date.None? &&
      time.None? && partySize.None? && !loading
    }

    constructor ()
      ensures IsReset()
    {
      phone, phoneError, message := [], [], [];
      date, time, partySize := None, None, None;
      loading := false;
    }

    /** The row the handler inserts from the current fields. */
    function Request(): NewReservation
      reads this
      requires date.Some? && time.Some?
    {
      NewReservation(phone, message, CombineDateTime(date.value, time.value), partySize)
    }

    /** `validatePhone(v)`: the new error is a function of `v` alone, whatever
        was shown before, so running it twice on the same value changes
        nothing the second time. */
    method ValidatePhone(v: string)
      modifies this`phoneError
      ensures phoneError == PhoneError(v)
      ensures phoneError == [] <==> IsPhoneNumber(v)
    {
      if !RegexTest(v) {
        phoneError := InvalidPhoneText;
      } else {
        phoneError := [];
      }
    }

    /** Typing in the phone field: revalidates only while an error is shown. */
    method OnPhoneChange(v: string)
      modifies this`phone, this`phoneError
      ensures phone == v
      ensures old(phoneError) != [] ==> phoneError == PhoneError(v)
      ensures old(phoneError) == [] ==> phoneError == []
    {
      phone := v;
      if phoneError != [] {
        ValidatePhone(v);
      }
    }

    /** Leaving the phone field: always revalidates. */
    method OnPhoneBlur(v: string)
      modifies this`phoneError
      ensures phoneError == PhoneError(v)
    {
      ValidatePhone(v);
    }

    method OnDateChange(d: Option<Date>)
      modifies this`date
      ensures date == d
    {
      date := d;
    }

    method OnTimeChange(t: Option<Time>)
      modifies this`time
      ensures time == t
    {
      time := t;
    }

    method OnPartySizeChange(n: Option<PartySize>)
      modifies this`partySize
      ensures partySize == n
    {
      partySize := n;
    }

    method OnMessageChange(m: string)
      modifies this`message
      ensures message == m
    {
      message := m;
    }

    /** What the steps after the guard leave behind, given the request they
        insert: the requests sent and the table's new rows, then either the
        reset form (insert succeeded, whatever the function call reported)
        or the untouched fields with `loading` off (insert failed, no function
        call). */
    twostate predicate Placed(store: Store, req: NewReservation, insertOutcome: Outcome)
      reads this, store
    {
      if insertOutcome == Success then
        && store.calls == old(store.calls) +
             [InsertReservation(req), InvokeFunction(ReservationFunction, StaffNotice(req))]
        && store.rows == old(store.rows) + [Created(old(store.nextId), req)]
        && IsReset()
      else
        && store.calls == old(store.calls) + [InsertReservation(req)]
        && store.rows == old(store.rows)
        && phone == old(phone) && message == old(message) && date == old(date)
        && time == old(time) && partySize == old(partySize)
        && !loading
    }

    /** The handler's steps after its guard: raise `loading`, insert, and on
        success invoke the notification function once and reset the form. */
    method PlaceReservation(store: Store, insertOutcome: Outcome, invokeOutcome: Outcome)
      requires store.Valid() && date.Some? && time.Some?
      modifies this, store
      ensures store.Valid()
      ensures Placed(store, old(Request()), insertOutcome)
      ensures insertOutcome == Failure ==> phoneError == old(phoneError)
    {
      loading := true;
      var req := Request();
      var inserted := store.Insert(req, insertOutcome);
      if !inserted {
        loading := false;
        return;
      }
      // a failed function call is only logged: the reset happens either way
      var _ := store.Invoke(ReservationFunction, StaffNotice(req), invokeOutcome);
      phone := [];
      phoneError := [];
      message := [];
      date := None;
      time := None;
      partySize := None;
      loading := false;
    }

    /** `handleSubmit` as written. Nothing is sent while the captured error is
        shown or no date or time is chosen; the phone error is revalidated in
        every case but a successful insert. */
    method HandleSubmit(store: Store, insertOutcome: Outcome, invokeOutcome: Outcome)
      requires store.Valid()
      modifies this, store
      ensures store.Valid()
      ensures SubmitProceeds(old(phoneError), old(date), old(time)) ==>
        Placed(store, old(Request()), insertOutcome)
      ensures !SubmitProceeds(old(phoneError), old(date), old(time)) ==>
        && unchanged(store)
        && phone == old(phone) && message == old(message) && date == old(date)
        && time == old(time) && partySize == old(partySize) && loading == old(loading)
      ensures !(SubmitProceeds(old(phoneError), old(date), old(time)) && insertOutcome == Success) ==>
        phoneError == PhoneError(phone)
    {
      var priorError := phoneError;
      ValidatePhone(phone);
      if !SubmitProceeds(priorError, date, time) {
        return;
      }
      PlaceReservation(store, insertOutcome, invokeOutcome);
    }

    /** The handler with its guard reading the freshly computed error: every
        insert it sends carries a phone number. */
    method HandleSubmitRevalidated(store: Store, insertOutcome: Outcome, invokeOutcome: Outcome)
      requires store.Valid()
      modifies this, store
      ensures store.Valid()
      ensures FreshSubmitProceeds(old(phone), old(date), old(time)) ==>
        IsPhoneNumber(old(phone)) && Placed(store, old(Request()), insertOutcome)
      ensures !FreshSubmitProceeds(old(phone), old(date), old(time)) ==>
        && unchanged(store)
        && phone == old(phone) && message == old(message) && date == old(date)
        && time == old(time) && partySize == old(partySize) && loading == old(loading)
      ensures !(FreshSubmitProceeds(old(phone), old(date), old(time)) && insertOutcome == Success) ==>
        phoneError == PhoneError(phone)
      ensures store.calls != old(store.calls) ==> IsPhoneNumber(old(phone))
    {
      ValidatePhone(phone);
      if !FreshSubmitProceeds(phone, date, time) {
        return;
      }
      PlaceReservation(store, insertOutcome, invokeOutcome);
    }
  }
}

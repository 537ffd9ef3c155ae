/** Two runs of the form and the dashboard against one store, put together
    from the components' contracts alone. */
module Scenarios {
  import opened Records
  import opened Phone
  import opened Backend
  import opened ReservationForm
  import opened AdminDashboard

  /** "123" typed into a fresh form without leaving the field, the other
      fields filled, then Enter: the button is enabled because no error is
      shown yet, the handler's guard reads that same empty error, and the
      invalid phone is inserted. */
  method EnterKeyInsertsInvalidPhone() returns (calls: seq<Call>)
    ensures |calls| == 2 && calls[0].InsertReservation?
    ensures !IsPhoneNumber(calls[0].row.phone)
  {
    var store := new Store();
    var form := new Form();
    form.OnDateChange(Some(Date(2024, 6, 1)));
    form.OnTimeChange(Some(Time(19, 0)));
    form.OnPartySizeChange(Some(2));
    form.OnMessageChange("Table for two");
    form.OnPhoneChange("123");
    assert !SubmitDisabled(form.phone, form.phoneError, form.date, form.time,
                           form.partySize, form.message, form.loading);
    form.HandleSubmit(store, Success, Success);
    calls := store.calls;
    PhoneErrorExamples();
  }

  /** The same keystrokes against the revalidating handler: nothing is sent,
      and the error is now shown. */
  method EnterKeyRevalidatedSendsNothing() returns (calls: seq<Call>, shown: string)
    ensures calls == [] && shown == InvalidPhoneText
  {
    var store := new Store();
    var form := new Form();
    form.OnDateChange(Some(Date(2024, 6, 1)));
    form.OnTimeChange(Some(Time(19, 0)));
    form.OnPartySizeChange(Some(2));
    form.OnMessageChange("Table for two");
    form.OnPhoneChange("123");
    PhoneErrorExamples();
    assert !FreshSubmitProceeds(form.phone, form.date, form.time);
    form.HandleSubmitRevalidated(store, Success, Success);
    calls, shown := store.calls, form.phoneError;
  }

  /** Submit a reservation, see it arrive on the dashboard, confirm it: one
      pending row becomes confirmed and stays in the table, the staff and then
      the requester are notified once each, and the dashboard is empty again. */
  method SubmitThenConfirm() returns (store: Store, dashboard: Dashboard)
    ensures |store.rows| == 1 && store.rows[0].adminResponse == ConfirmedFlag
    ensures store.rows[0].phone == "5551234567" && store.rows[0].partySize == Some(2)
    ensures |store.calls| == 4
    ensures store.calls[0].InsertReservation? && store.calls[2] == UpdateAdminResponse(store.rows[0].id, ConfirmedFlag)
    ensures store.calls[0].row.phone == "5551234567" && store.calls[0].row.message == "Table for two"
    ensures store.calls[0].row.partySize == Some(2)
    ensures store.calls[1] == InvokeFunction(ReservationFunction, StaffNotice(store.calls[0].row))
    ensures store.calls[3] == InvokeFunction(ReservationFunction, ConfirmationNotice("5551234567"))
    ensures dashboard.reservations == []
  {
    store := new Store();
    dashboard := new Dashboard();
    var form := new Form();
    dashboard.OnSnapshot(Rows([]));
    form.OnPhoneChange("5551234567");
    form.OnDateChange(Some(Date(2024, 6, 1)));
    form.OnTimeChange(Some(Time(19, 0)));
    form.OnPartySizeChange(Some(2));
    form.OnMessageChange("Table for two");
    assert SubmitProceeds(form.phoneError, form.date, form.time);
    var req := form.Request();
    form.HandleSubmit(store, Success, Success);
    assert |store.rows| == 1 && store.rows[0].phone == req.phone;
    var row := store.rows[0];
    assert Pending(row);
    dashboard.OnInsert(row);
    assert dashboard.reservations == [row];
    dashboard.HandleConfirm(store, row.id, row.phone, Success, Success);
    assert store.rows[0].id == row.id;
  }
}

/** Values shared by the reservation form, the admin dashboard and the hosted
    backend they both talk to: the reservation record, the requests the two
    components send, and the outcomes the backend reports. */
module Records {

  datatype Option<T> = None | Some(value: T)

  /** A calendar day chosen in the date picker. */
  datatype Date = Date(year: int, month: int, day: int)

  /** A wall-clock time chosen in the time picker. */
  datatype Time = Time(hours: int, minutes: int)

  /** The reservation instant: the chosen day with the chosen hours and
      minutes, seconds and milliseconds zeroed. Its ISO-8601 text is not
      modelled; the value is kept opaque. */
  datatype DateTime = DateTime(day: Date, hours: int, minutes: int)

  function CombineDateTime(d: Date, t: Time): DateTime
  {
    DateTime(d, t.hours, t.minutes)
  }

  /** The party sizes the form's select offers. */
  type PartySize = n: int | 1 <= n <= 8 witness 1

  /** The `adminResponse` column as the JSON the client sends or filters on:
      the snapshot filters on the boolean `false`, the confirmation writes the
      text "true". */
  datatype FlagValue = Bool(b: bool) | Text(s: string)

  const Unconfirmed: FlagValue := Bool(false)
  const ConfirmedFlag: FlagValue := Text("true")

  /** A row of the `reservations` table. `id` is assigned by the store. */
  datatype Reservation = Reservation(
    id: nat,
    phone: string,
    message: string,
    reservationTime: DateTime,
    partySize: Option<PartySize>,
    adminResponse: FlagValue)

  /** The row the form inserts: no id, no creation time, no `adminResponse`. */
  datatype NewReservation = NewReservation(
    phone: string,
    message: string,
    reservationTime: DateTime,
    partySize: Option<PartySize>)

  /** The optional part of a notification body that only the staff notice has. */
  datatype Details = Details(dateTime: DateTime, partySize: Option<PartySize>)

  /** The body given to the `reservation` serverless function. */
  datatype FunctionBody = FunctionBody(
    phone: string,
    message: string,
    details: Option<Details>,
    notifyStaff: bool)

  /** The name of the notification function both components invoke. */
  const ReservationFunction: string := "reservation"

  /** A request sent to the backend, in the order it was sent. */
  datatype Call =
    | InsertReservation(row: NewReservation)
    | UpdateAdminResponse(id: nat, value: FlagValue)
    | InvokeFunction(name: string, body: FunctionBody)

  /** What an insert, update or function call reports: only whether `error`
      was set is ever looked at. */
  datatype Outcome = Success | Failure

  /** What the dashboard's snapshot query reports. */
  datatype QueryResult = Rows(data: seq<Reservation>) | QueryFailure
}

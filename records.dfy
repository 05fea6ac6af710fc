/** The appointment record the server returns to the appointment pages. */
module Records {
  import opened Js

  /** A populated person reference (`patientId` or `doctorId` after population);
      an empty string stands for an absent name part. */
  datatype Person = Person(id: string, firstName: string, lastName: string)

  /** An appointment as the client holds it. `date` is a day number; `cancelReason` and
      `statusColor` are only present once the client has set them. */
  datatype Appointment = Appointment(
    id: string,
    patient: Option<Person>,
    doctor: Option<Person>,
    date: int,
    time: string,
    reason: string,
    status: string,
    notes: string,
    cancelReason: Option<string>,
    statusColor: Option<string>)

  /** The key `new Date(a.date)` gives for comparisons and sorting. */
  function DateKey(a: Appointment): int { a.date }
}

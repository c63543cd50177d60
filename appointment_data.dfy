/** The appointment record, declared with the same fields in
    hooks/useAppointments.ts and store/slices/appointmentsSlice.ts. */
module AppointmentData {
  import opened Wrappers
  import opened Records

  datatype Status = Upcoming | Completed | Cancelled

  /** Every field but the id: `Omit<Appointment, 'id'>`. */
  datatype AppointmentFields = AppointmentFields(
    doctorName: string,
    specialty: string,
    date: string,
    time: string,
    location: string,
    notes: Option<string>,
    status: Status)

  type Appointment = Keyed<AppointmentFields>
}

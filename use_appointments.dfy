/** The appointment store kept in component state by the `useAppointments`
    hook: each operation computes a new list from the previous one. */
module UseAppointments {
  import opened Wrappers
  import opened Records
  import opened AppointmentData

  /** The three mock appointments the hook starts with. */
  function InitialAppointments(): (r: seq<Appointment>)
    ensures |r| == 3
    ensures r[0].id == "1" && r[1].id == "2" && r[2].id == "3"
    ensures r[0].data.status == Upcoming && r[1].data.status == Upcoming
    ensures r[2].data.status == Completed
    ensures UniqueIds(r)
  {
    [ Keyed("1", AppointmentFields("Dr. Sarah Johnson", "Cardiologist", "2025-05-25", "10:30 AM",
                                   "Heart Care Center", Some("Bring previous ECG reports."), Upcoming)),
      Keyed("2", AppointmentFields("Dr. Michael Chen", "Endocrinologist", "2025-06-02", "2:15 PM",
                                   "Diabetes Management Clinic",
                                   Some("Fasting required for 8 hours before appointment."), Upcoming)),
      Keyed("3", AppointmentFields("Dr. Emily Rodriguez", "General Physician", "2025-04-15", "9:00 AM",
                                   "Family Health Clinic", Some("Annual physical examination."), Completed)) ]
  }

  /** `addAppointment`: the new record, under the id generated from the
      clock (here the parameter `id`), goes at the end. */
  function AddAppointment(appointments: seq<Appointment>, appointment: AppointmentFields, id: string)
    : (r: seq<Appointment>)
    ensures |r| == |appointments| + 1
    ensures r[..|appointments|] == appointments
    ensures r[|appointments|].id == id && r[|appointments|].data == appointment
  {
    Append(appointments, id, appointment)
  }

  /** `updateAppointment`: every record with the updated id is replaced. */
  function UpdateAppointment(appointments: seq<Appointment>, updated: Appointment): (r: seq<Appointment>)
    ensures |r| == |appointments|
    ensures forall i :: 0 <= i < |r| ==>
              r[i] == if appointments[i].id == updated.id then updated else appointments[i]
    ensures !HasId(appointments, updated.id) ==> r == appointments
  {
    ReplaceAllAbsent(appointments, updated);
    ReplaceAll(appointments, updated)
  }

  /** `deleteAppointment`: every record with the id goes, the rest keep
      their order; an absent id changes nothing. */
  function DeleteAppointment(appointments: seq<Appointment>, id: string): (r: seq<Appointment>)
    ensures !HasId(r, id)
    ensures |r| == |appointments| - CountId(appointments, id)
    ensures forall i :: 0 <= i < |appointments| && appointments[i].id != id ==> appointments[i] in r
    ensures IsSubsequence(r, appointments)
    ensures !HasId(appointments, id) ==> r == appointments
  {
    RemoveAllRemoves(appointments, id);
    RemoveAllKeepsOrder(appointments, id);
    RemoveAllAbsent(appointments, id);
    RemoveAll(appointments, id)
  }

  /** `getAppointmentById`: the first record with the id, if any. */
  function GetAppointmentById(appointments: seq<Appointment>, id: string): (r: Option<Appointment>)
    ensures r.None? <==> !HasId(appointments, id)
    ensures r.Some? ==> r.value.id == id
    ensures r.Some? ==> exists k :: 0 <= k < |appointments| && appointments[k] == r.value &&
                          forall m :: 0 <= m < k ==> appointments[m].id != id
  {
    FindFirst(appointments, id)
  }

  /** Deleting twice equals deleting once. */
  lemma DeleteAppointmentIdempotent(appointments: seq<Appointment>, id: string)
    ensures DeleteAppointment(DeleteAppointment(appointments, id), id) == DeleteAppointment(appointments, id)
  {
    RemoveAllIdempotent(appointments, id);
  }

  /** Lookup after add returns exactly the added record when the id is new. */
  lemma GetAfterAddAppointment(appointments: seq<Appointment>, appointment: AppointmentFields, id: string)
    requires !HasId(appointments, id)
    ensures GetAppointmentById(AddAppointment(appointments, appointment, id), id) == Some(Keyed(id, appointment))
  {
    FindFirstAfterAppend(appointments, id, appointment);
  }

  /** Lookup after an update of a present id returns the updated record. */
  lemma GetAfterUpdateAppointment(appointments: seq<Appointment>, updated: Appointment)
    requires HasId(appointments, updated.id)
    ensures GetAppointmentById(UpdateAppointment(appointments, updated), updated.id) == Some(updated)
  {
    FindFirstAfterReplaceAll(appointments, updated);
  }
}

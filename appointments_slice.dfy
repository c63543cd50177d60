/** The `appointments` Redux slice: its reducers change the
    `state.appointments` draft in place. */
module AppointmentsSlice {
  import opened Wrappers
  import opened Records
  import opened AppointmentData

  /** `initialState.appointments`: one mock appointment. */
  function InitialAppointments(): (r: seq<Appointment>)
    ensures |r| == 1 && r[0].id == "1" && r[0].data.status == Upcoming
  {
    [ Keyed("1", AppointmentFields("Dr. Sarah Johnson", "Cardiologist", "2025-05-25", "10:30 AM",
                                   "Heart Care Center", Some("Bring previous ECG reports."), Upcoming)) ]
  }

  /** What `updateAppointment` leaves in the list: the record at the first
      position carrying `rec.id` (as `findIndex` finds it) is overwritten;
      later records with the same id are not touched. */
  function ReplaceFirst(s: seq<Appointment>, rec: Appointment): (r: seq<Appointment>)
    ensures |r| == |s|
    ensures !HasId(s, rec.id) ==> r == s
    ensures HasId(s, rec.id) ==>
              exists k :: 0 <= k < |s| && s[k].id == rec.id && (forall j :: 0 <= j < k ==> s[j].id != rec.id) &&
                r == s[k := rec]
  {
    var index := FindIndex(s, rec.id);
    if index != -1 then s[index := rec] else s
  }

  /** Only the first match changes: every other position keeps its record,
      even one carrying the same id. */
  lemma ReplaceFirstOnlyFirst(s: seq<Appointment>, rec: Appointment, j: int)
    requires 0 <= j < |s| && j != FindIndex(s, rec.id)
    ensures ReplaceFirst(s, rec)[j] == s[j]
  {
  }

  /** With unique ids the slice's update and the hook's update agree. */
  lemma ReplaceFirstIsReplaceAllWhenUnique(s: seq<Appointment>, rec: Appointment)
    requires UniqueIds(s)
    ensures ReplaceFirst(s, rec) == ReplaceAll(s, rec)
  {
    var r, q := ReplaceFirst(s, rec), ReplaceAll(s, rec);
    var k := FindIndex(s, rec.id);
    assert forall i :: 0 <= i < |s| && s[i].id == rec.id ==> i == k;
    assert forall i :: 0 <= i < |s| ==> r[i] == q[i];
  }

  /** With a duplicated id the two updates differ: the slice leaves the
      second copy alone, the hook replaces it. */
  lemma ReplaceFirstDiffersOnDuplicates(x: AppointmentFields, y: AppointmentFields)
    requires x != y
    ensures ReplaceFirst([Keyed("1", x), Keyed("1", x)], Keyed("1", y)) == [Keyed("1", y), Keyed("1", x)]
    ensures ReplaceAll([Keyed("1", x), Keyed("1", x)], Keyed("1", y)) == [Keyed("1", y), Keyed("1", y)]
  {
    var s := [Keyed("1", x), Keyed("1", x)];
    assert FindIndex(s, "1") == 0;
    assert ReplaceAll(s, Keyed("1", y))[1] == Keyed("1", y);
  }

  /** The slice's state object. */
  class AppointmentsState {
    var appointments: seq<Appointment>

    constructor ()
      ensures appointments == InitialAppointments()
    {
      appointments := InitialAppointments();
    }

    /** `addAppointment`: pushes the payload under the id generated from the
        clock (the parameter `now`). The payload carries no id of its own, so
        the generated id is the one the new record gets. */
    method AddAppointment(payload: AppointmentFields, now: string)
      modifies this
      ensures appointments == Append(old(appointments), now, payload)
    {
      appointments := appointments + [Keyed(now, payload)];
    }

    /** `updateAppointment`: `findIndex`, then overwrite that slot if found. */
    method UpdateAppointment(payload: Appointment)
      modifies this
      ensures appointments == ReplaceFirst(old(appointments), payload)
      ensures |appointments| == |old(appointments)|
      ensures !HasId(old(appointments), payload.id) ==> appointments == old(appointments)
    {
      var index := FindIndex(appointments, payload.id);
      if index != -1 {
        appointments := appointments[index := payload];
      }
    }

    /** `deleteAppointment`: the field is reassigned to the filtered list. */
    method DeleteAppointment(id: string)
      modifies this
      ensures appointments == RemoveAll(old(appointments), id)
      ensures !HasId(appointments, id)
      ensures IsSubsequence(appointments, old(appointments))
    {
      RemoveAllRemoves(appointments, id);
      RemoveAllKeepsOrder(appointments, id);
      appointments := RemoveAll(appointments, id);
    }
  }
}

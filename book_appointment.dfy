/** The booking form of app/appointments/book.tsx. The picked date and time
    are held as the texts the record stores for them (`yyyy-MM-dd` and
    `HH:mm`); the formatting itself belongs to a date library and is not
    modelled. */
module BookAppointment {
  import opened Wrappers
  import opened Records
  import opened AppointmentData

  /** The ten specialties the form offers. */
  const Specialties: seq<string> := [
    "Cardiology", "Dermatology", "Endocrinology", "Family Medicine",
    "Gastroenterology", "Neurology", "Oncology", "Pediatrics",
    "Psychiatry", "Rheumatology"]

  /** The list holds ten distinct entries, so each chip names one specialty. */
  lemma SpecialtiesListed()
    ensures |Specialties| == 10
    ensures forall i, j :: 0 <= i < j < |Specialties| ==> Specialties[i] != Specialties[j]
    ensures "" !in Specialties
  {
    forall i, j | 0 <= i < j < |Specialties| ensures Specialties[i] != Specialties[j] {
      assert Specialties[i][0] != Specialties[j][0] || Specialties[i][1] != Specialties[j][1];
    }
  }

  /** The message `handleSubmit` throws for the given inputs, or None when
      both required fields are filled. Specialty is checked first; only the
      empty text counts as missing (nothing is trimmed). */
  function SubmitError(specialty: string, location: string): (r: Option<string>)
    ensures r.None? <==> specialty != "" && location != ""
    ensures specialty == "" ==> r == Some("Please select a specialty")
    ensures specialty != "" && location == "" ==> r == Some("Please enter a location")
  {
    if specialty == "" then Some("Please select a specialty")
    else if location == "" then Some("Please enter a location")
    else None
  }

  /** The record `handleSubmit` dispatches: fixed doctor, status upcoming. */
  function BookedAppointment(id: string, specialty: string, date: string, time: string,
                             location: string, notes: string): (r: Appointment)
    ensures r.id == id && r.data.status == Upcoming && r.data.doctorName == "Dr. Who"
    ensures r.data.specialty == specialty && r.data.date == date && r.data.time == time
    ensures r.data.location == location && r.data.notes == Some(notes)
  {
    Keyed(id, AppointmentFields("Dr. Who", specialty, date, time, location, Some(notes), Upcoming))
  }

  class BookForm {
    var selectedDate: string
    var showDatePicker: bool
    var showTimePicker: bool
    var selectedTime: string
    var selectedSpecialty: string
    var location: string
    var notes: string
    var error: Option<string>
    var isSubmitting: bool

    /** The specialty is unset or one of the offered ones. */
    ghost predicate Valid()
      reads this
    {
      selectedSpecialty == "" || selectedSpecialty in Specialties
    }

    /** The form opens on today's date and the current time. */
    constructor (today: string, now: string)
      ensures Valid()
      ensures selectedDate == today && selectedTime == now
      ensures !showDatePicker && !showTimePicker
      ensures selectedSpecialty == "" && location == "" && notes == ""
      ensures error == None && !isSubmitting
    {
      selectedDate, selectedTime := today, now;
      showDatePicker, showTimePicker := false, false;
      selectedSpecialty, location, notes := "", "", "";
      error, isSubmitting := None, false;
    }

    /** The date button opens the date picker. */
    method OpenDatePicker()
      modifies this`showDatePicker
      ensures showDatePicker
    {
      showDatePicker := true;
    }

    method OpenTimePicker()
      modifies this`showTimePicker
      ensures showTimePicker
    {
      showTimePicker := true;
    }

    /** `handleDateChange`: the picker closes; a supplied date replaces the
        stored one, a dismissal keeps it. */
    method HandleDateChange(date: Option<string>)
      modifies this`showDatePicker, this`selectedDate
      ensures !showDatePicker
      ensures selectedDate == if date.Some? then date.value else old(selectedDate)
    {
      showDatePicker := false;
      if date.Some? {
        selectedDate := date.value;
      }
    }

    /** `handleTimeChange`, the same for the time. */
    method HandleTimeChange(time: Option<string>)
      modifies this`showTimePicker, this`selectedTime
      ensures !showTimePicker
      ensures selectedTime == if time.Some? then time.value else old(selectedTime)
    {
      showTimePicker := false;
      if time.Some? {
        selectedTime := time.value;
      }
    }

    /** Pressing the `index`th specialty chip. */
    method SelectSpecialty(index: nat)
      requires Valid() && index < |Specialties|
      modifies this`selectedSpecialty
      ensures Valid() && selectedSpecialty == Specialties[index]
    {
      selectedSpecialty := Specialties[index];
    }

    method SetLocation(text: string)
      modifies this`location
      ensures location == text
    {
      location := text;
    }

    method SetNotes(text: string)
      modifies this`notes
      ensures notes == text
    {
      notes := text;
    }

    /** `handleSubmit` with `id` standing for the generated uuid. The error is
        cleared and the form marked as submitting; a failed check records its
        message and dispatches nothing; otherwise the record is dispatched
        (returned here) and the screen navigates back. Either way
        submitting ends. */
    method HandleSubmit(id: string) returns (dispatched: Option<Appointment>, navigatedBack: bool)
      requires Valid()
      modifies this`error, this`isSubmitting
      ensures Valid()
      ensures error == SubmitError(selectedSpecialty, location)
      ensures dispatched.None? <==> error.Some?
      ensures dispatched.Some? ==>
                dispatched.value == BookedAppointment(id, selectedSpecialty, selectedDate, selectedTime, location, notes)
      ensures navigatedBack <==> dispatched.Some?
      ensures !isSubmitting
    {
      error := None;
      isSubmitting := true;
      dispatched, navigatedBack := None, false;
      if selectedSpecialty == "" {
        error := Some("Please select a specialty");
      } else if location == "" {
        error := Some("Please enter a location");
      } else {
        dispatched := Some(BookedAppointment(id, selectedSpecialty, selectedDate, selectedTime, location, notes));
        navigatedBack := true;
      }
      isSubmitting := false;
    }
  }
}

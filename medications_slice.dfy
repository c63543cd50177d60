/** The `medications` Redux slice, the one reducer the store registers. */
module MedicationsSlice {
  import opened Records

  /** The slice's own, smaller medication shape (its field `type` is called
      `kind` here). */
  datatype MedicationFields = MedicationFields(name: string, dosage: string, time: string, kind: string)

  type Medication = Keyed<MedicationFields>

  class MedicationsState {
    var medications: seq<Medication>

    /** `initialState`: no medications. */
    constructor ()
      ensures medications == []
    {
      medications := [];
    }

    /** `addMedication`: pushes the payload as it is, id included; nothing
        checks whether that id is already present. */
    method AddMedication(payload: Medication)
      modifies this
      ensures |medications| == |old(medications)| + 1
      ensures medications[..|old(medications)|] == old(medications)
      ensures medications[|old(medications)|] == payload
    {
      medications := medications + [payload];
    }

    /** `setMedications`: the whole list is replaced. */
    method SetMedications(payload: seq<Medication>)
      modifies this
      ensures medications == payload
    {
      medications := payload;
    }
  }

  /** Two adds with the same id leave two records with that id. */
  method DuplicateIdsCoexist(payload: Medication) returns (result: seq<Medication>)
    ensures result == [payload, payload]
    ensures CountId(result, payload.id) == 2
  {
    var state := new MedicationsState();
    state.AddMedication(payload);
    state.AddMedication(payload);
    result := state.medications;
  }

  /** Setting the same list twice ends where setting it once does, whatever
      was there before. */
  method SetTwiceIsSetOnce(before: seq<Medication>, payload: seq<Medication>)
    returns (once: seq<Medication>, twice: seq<Medication>)
    ensures once == payload && twice == payload
  {
    var a := new MedicationsState();
    a.SetMedications(before);
    a.SetMedications(payload);
    once := a.medications;
    a.SetMedications(payload);
    twice := a.medications;
  }
}

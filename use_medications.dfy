/** The medication store kept in component state by the `useMedications`
    hook: each operation computes a new list from the previous one. */
module UseMedications {
  import opened Wrappers
  import opened Records

  /** Every field but the id: `Omit<Medication, 'id'>`. The source's field
      `type` is called `kind` here (`type` is a Dafny keyword). */
  datatype MedicationFields = MedicationFields(
    name: string,
    dosage: string,
    frequency: string,
    time: string,
    kind: string,
    startDate: string,
    endDate: Option<string>,
    instructions: Option<string>,
    refillDate: Option<string>,
    refillReminder: Option<bool>)

  type Medication = Keyed<MedicationFields>

  /** The three mock medications the hook starts with. */
  function InitialMedications(): (r: seq<Medication>)
    ensures |r| == 3
    ensures r[0].id == "1" && r[0].data.name == "Lisinopril"
    ensures r[1].id == "2" && r[1].data.name == "Metformin"
    ensures r[2].id == "3" && r[2].data.name == "Vitamin D"
    ensures UniqueIds(r)
  {
    [ Keyed("1", MedicationFields("Lisinopril", "10mg", "Once daily", "09:00 AM", "Tablet", "2025-05-10",
                                  None, Some("Take with or without food."), None, None)),
      Keyed("2", MedicationFields("Metformin", "500mg", "Twice daily", "01:00 PM", "Tablet", "2025-05-15",
                                  None, Some("Take with meals."), None, None)),
      Keyed("3", MedicationFields("Vitamin D", "1000 IU", "Once daily", "09:00 PM", "Capsule", "2025-05-25",
                                  None, Some("Take with food."), None, None)) ]
  }

  /** `addMedication`: the new record, under the id generated from the
      clock (here the parameter `id`), goes at the end. */
  function AddMedication(medications: seq<Medication>, medication: MedicationFields, id: string)
    : (r: seq<Medication>)
    ensures |r| == |medications| + 1
    ensures r[..|medications|] == medications
    ensures r[|medications|].id == id && r[|medications|].data == medication
  {
    Append(medications, id, medication)
  }

  /** `updateMedication`: every record with the updated id is replaced. */
  function UpdateMedication(medications: seq<Medication>, updated: Medication): (r: seq<Medication>)
    ensures |r| == |medications|
    ensures forall i :: 0 <= i < |r| ==>
              r[i] == if medications[i].id == updated.id then updated else medications[i]
    ensures !HasId(medications, updated.id) ==> r == medications
  {
    ReplaceAllAbsent(medications, updated);
    ReplaceAll(medications, updated)
  }

  /** `deleteMedication`: every record with the id goes, the rest keep their
      order; an absent id changes nothing. */
  function DeleteMedication(medications: seq<Medication>, id: string): (r: seq<Medication>)
    ensures !HasId(r, id)
    ensures |r| == |medications| - CountId(medications, id)
    ensures forall i :: 0 <= i < |medications| && medications[i].id != id ==> medications[i] in r
    ensures IsSubsequence(r, medications)
    ensures !HasId(medications, id) ==> r == medications
  {
    RemoveAllRemoves(medications, id);
    RemoveAllKeepsOrder(medications, id);
    RemoveAllAbsent(medications, id);
    RemoveAll(medications, id)
  }

  /** `getMedicationById`: the first record with the id, if any. */
  function GetMedicationById(medications: seq<Medication>, id: string): (r: Option<Medication>)
    ensures r.None? <==> !HasId(medications, id)
    ensures r.Some? ==> r.value.id == id
    ensures r.Some? ==> exists k :: 0 <= k < |medications| && medications[k] == r.value &&
                          forall m :: 0 <= m < k ==> medications[m].id != id
  {
    FindFirst(medications, id)
  }

  /** Deleting twice equals deleting once. */
  lemma DeleteMedicationIdempotent(medications: seq<Medication>, id: string)
    ensures DeleteMedication(DeleteMedication(medications, id), id) == DeleteMedication(medications, id)
  {
    RemoveAllIdempotent(medications, id);
  }

  /** Lookup after add returns exactly the added record when the id is new;
      when the id was already used, the older record is still the one found. */
  lemma GetAfterAddMedication(medications: seq<Medication>, medication: MedicationFields, id: string)
    ensures GetMedicationById(AddMedication(medications, medication, id), id) ==
            if HasId(medications, id) then GetMedicationById(medications, id) else Some(Keyed(id, medication))
  {
    FindFirstAfterAppend(medications, id, medication);
  }

  /** The touched list keeps unique ids as long as new ids are fresh. */
  lemma OperationsKeepUniqueIds(medications: seq<Medication>, medication: MedicationFields,
                                updated: Medication, newId: string, deleted: string)
    requires UniqueIds(medications)
    ensures !HasId(medications, newId) ==> UniqueIds(AddMedication(medications, medication, newId))
    ensures UniqueIds(UpdateMedication(medications, updated))
    ensures UniqueIds(DeleteMedication(medications, deleted))
  {
    if !HasId(medications, newId) {
      AppendKeepsUnique(medications, newId, medication);
    }
    ReplaceAllKeepsUnique(medications, updated);
    RemoveAllKeepsUnique(medications, deleted);
  }
}

/** The medication catalog screen: the catalog, the medication shown in the
    detail dialog, the dialog flag and the pet-type filter. */
module Medications {
  import opened Common
  import opened Catalog

  /** A medication product in the catalog. `price` is kept only to be shown. */
  datatype Medication = Medication(
    id: string,
    name: string,
    description: string,
    price: real,
    dosage: string,
    frequency: string,
    forPetTypes: seq<string>,
    manufacturer: string,
    inStock: bool,
    imageUrl: Option<string>)

  function PetTypesOf(m: Medication): seq<string>
  {
    m.forPetTypes
  }

  /** The medication catalog screen's state. */
  class MedicationsList {
    var medications: seq<Medication>
    var selectedMedication: Option<Medication>
    var isViewOpen: bool
    var filterPetType: Option<string>

    /** The screen as it mounts: nothing selected, no filter. */
    constructor (initial: seq<Medication>)
      ensures medications == initial && selectedMedication == None
      ensures !isViewOpen && filterPetType == None
    {
      medications := initial;
      selectedMedication := None;
      isViewOpen := false;
      filterPetType := None;
    }

    /** The cards shown: with a pet type chosen, the medications for that
        type in catalog order; otherwise the whole catalog. */
    function FilteredMedications(): (r: seq<Medication>)
      reads this
      ensures !IsFiltering(filterPetType) ==> r == medications
      ensures IsFiltering(filterPetType) ==>
        forall i :: 0 <= i < |r| ==> filterPetType.value in r[i].forPetTypes
      ensures IsFiltering(filterPetType) ==>
        forall i :: 0 <= i < |medications| && filterPetType.value in medications[i].forPetTypes
          ==> medications[i] in r
      ensures IsFiltering(filterPetType) ==>
        |r| == Count(medications, ForType(PetTypesOf, filterPetType.value))
      ensures |r| <= |medications|
      ensures IsSubsequence(r, medications)
    {
      FilteredIsSubsequence(medications, PetTypesOf, filterPetType);
      FilterByPetType(medications, PetTypesOf, filterPetType)
    }

    /** "View Details": show `m` in the detail dialog. */
    method ViewMedication(m: Medication)
      modifies this
      ensures selectedMedication == Some(m) && isViewOpen
      ensures medications == old(medications) && filterPetType == old(filterPetType)
    {
      selectedMedication := Some(m);
      isViewOpen := true;
    }

    /** The pet-type Select; "All Pets" (value "") shows the whole catalog. */
    method ChooseFilter(value: string)
      modifies this
      ensures filterPetType == FilterChoice(value)
      ensures value == "" ==> FilteredMedications() == medications
      ensures medications == old(medications) && selectedMedication == old(selectedMedication)
      ensures isViewOpen == old(isViewOpen)
    {
      filterPetType := FilterChoice(value);
    }
  }
}

/** The vaccination catalog screen: the catalog, the vaccination shown in the
    detail dialog, the dialog flag and the pet-type filter. */
module Vaccinations {
  import opened Common
  import opened Catalog

  /** A vaccine product in the catalog. `price` is kept only to be shown. */
  datatype Vaccination = Vaccination(
    id: string,
    name: string,
    description: string,
    price: real,
    forPetTypes: seq<string>,
    manufacturer: string,
    frequency: string,
    recommendedAge: string,
    inStock: bool,
    imageUrl: Option<string>,
    sideEffects: Option<string>)

  function PetTypesOf(v: Vaccination): seq<string>
  {
    v.forPetTypes
  }

  /** The vaccination catalog screen's state. */
  class VaccinationsList {
    var vaccinations: seq<Vaccination>
    var selectedVaccination: Option<Vaccination>
    var isViewOpen: bool
    var filterPetType: Option<string>

    /** The screen as it mounts: nothing selected, no filter. */
    constructor (initial: seq<Vaccination>)
      ensures vaccinations == initial && selectedVaccination == None
      ensures !isViewOpen && filterPetType == None
    {
      vaccinations := initial;
      selectedVaccination := None;
      isViewOpen := false;
      filterPetType := None;
    }

    /** The cards shown: with a pet type chosen, the vaccinations for that
        type in catalog order; otherwise the whole catalog. */
    function FilteredVaccinations(): (r: seq<Vaccination>)
      reads this
      ensures !IsFiltering(filterPetType) ==> r == vaccinations
      ensures IsFiltering(filterPetType) ==>
        forall i :: 0 <= i < |r| ==> filterPetType.value in r[i].forPetTypes
      ensures IsFiltering(filterPetType) ==>
        forall i :: 0 <= i < |vaccinations| && filterPetType.value in vaccinations[i].forPetTypes
          ==> vaccinations[i] in r
      ensures IsFiltering(filterPetType) ==>
        |r| == Count(vaccinations, ForType(PetTypesOf, filterPetType.value))
      ensures |r| <= |vaccinations|
      ensures IsSubsequence(r, vaccinations)
    {
      FilteredIsSubsequence(vaccinations, PetTypesOf, filterPetType);
      FilterByPetType(vaccinations, PetTypesOf, filterPetType)
    }

    /** "View Details": show `v` in the detail dialog. */
    method ViewVaccination(v: Vaccination)
      modifies this
      ensures selectedVaccination == Some(v) && isViewOpen
      ensures vaccinations == old(vaccinations) && filterPetType == old(filterPetType)
    {
      selectedVaccination := Some(v);
      isViewOpen := true;
    }

    /** The pet-type Select; "All Pets" (value "") shows the whole catalog. */
    method ChooseFilter(value: string)
      modifies this
      ensures filterPetType == FilterChoice(value)
      ensures value == "" ==> FilteredVaccinations() == vaccinations
      ensures vaccinations == old(vaccinations) && selectedVaccination == old(selectedVaccination)
      ensures isViewOpen == old(isViewOpen)
    {
      filterPetType := FilterChoice(value);
    }
  }
}

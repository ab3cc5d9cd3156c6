/** The pet list screen: the list of pets, the pet selected for viewing or
    editing, the add-pet draft and the three dialog flags, with the handlers
    that add, view, edit, update and delete pets. Ids are supplied by the
    caller (the screen uses the current time) and need not be unique. */
module Pets {
  import opened Common

  /** A pet profile; the optional fields are absent until a form sets them. */
  datatype Pet = Pet(
    id: string,
    name: string,
    breed: string,
    age: int,
    photoUrl: Option<string>,
    petType: string,
    weight: Option<string>,
    birthdate: Option<string>,
    microchipId: Option<string>,
    allergies: Option<string>,
    specialNeeds: Option<string>)

  /** A pet without its id: the add-pet form's draft. */
  datatype PetDraft = PetDraft(
    name: string,
    breed: string,
    age: int,
    photoUrl: Option<string>,
    petType: string,
    weight: Option<string>,
    birthdate: Option<string>,
    microchipId: Option<string>,
    allergies: Option<string>,
    specialNeeds: Option<string>)

  /** What the add handler reports: the pet was added, or the required-field
      check stopped it (the screen shows an alert). */
  datatype AddOutcome = Added | MissingRequiredFields

  /** The draft the screen starts with: only the required fields are set. */
  function InitialDraft(): PetDraft
  {
    PetDraft("", "", 0, None, "Dog", None, None, None, None, None)
  }

  /** The draft after a successful add: every text field is set to "". */
  function ClearedDraft(): PetDraft
  {
    PetDraft("", "", 0, Some(""), "Dog", Some(""), Some(""), Some(""), Some(""), Some(""))
  }

  /** The pet a draft becomes once it is given an id. */
  function WithId(d: PetDraft, id: string): (p: Pet)
    ensures p.id == id && ForgetId(p) == d
  {
    Pet(id, d.name, d.breed, d.age, d.photoUrl, d.petType,
        d.weight, d.birthdate, d.microchipId, d.allergies, d.specialNeeds)
  }

  /** Every field of a pet but its id. */
  function ForgetId(p: Pet): PetDraft
  {
    PetDraft(p.name, p.breed, p.age, p.photoUrl, p.petType,
             p.weight, p.birthdate, p.microchipId, p.allergies, p.specialNeeds)
  }

  /** The required-field check of the add form: name and breed non-empty. */
  predicate IsComplete(d: PetDraft)
  {
    d.name != "" && d.breed != ""
  }

  /** The age typed into a number field: `parsed` is what integer parsing
      returned (None for NaN); NaN and 0 both give 0, any other integer,
      negative ones included, is kept. */
  function AgeFromInput(parsed: Option<int>): (age: int)
    ensures parsed.None? ==> age == 0
    ensures parsed.Some? ==> age == parsed.value
    ensures age != 0 ==> parsed == Some(age)
  {
    match parsed
    case None => 0
    case Some(n) => if n != 0 then n else 0
  }

  function IdIs(id: string): Pet -> bool
  {
    (p: Pet) => p.id == id
  }

  function IdIsNot(id: string): Pet -> bool
  {
    (p: Pet) => p.id != id
  }

  ghost predicate HasId(pets: seq<Pet>, id: string)
  {
    exists i :: 0 <= i < |pets| && pets[i].id == id
  }

  /** `pets.find(p => p.id === id)`: the first pet with that id. */
  function FindById(pets: seq<Pet>, id: string): (r: Option<Pet>)
    ensures r.Some? <==> HasId(pets, id)
    ensures r.Some? ==> exists i :: IsFirstMatch(pets, IdIs(id), i) && pets[i] == r.value
  {
    Find(pets, IdIs(id))
  }

  /** `pets.map(p => p.id === sel.id ? sel : p)`. */
  function ReplaceById(pets: seq<Pet>, sel: Pet): (r: seq<Pet>)
    ensures |r| == |pets|
    ensures forall i :: 0 <= i < |pets| && pets[i].id == sel.id ==> r[i] == sel
    ensures forall i :: 0 <= i < |pets| && pets[i].id != sel.id ==> r[i] == pets[i]
  {
    if pets == [] then []
    else [if pets[0].id == sel.id then sel else pets[0]] + ReplaceById(pets[1..], sel)
  }

  /** `pets.filter(p => p.id !== id)`. */
  function RemoveById(pets: seq<Pet>, id: string): (r: seq<Pet>)
    ensures |r| == |pets| - Count(pets, IdIs(id))
    ensures forall i :: 0 <= i < |r| ==> r[i].id != id
    ensures forall i :: 0 <= i < |pets| && pets[i].id != id ==> pets[i] in r
    ensures IsSubsequence(r, pets)
  {
    CountSplit(pets, id);
    FilterIsSubsequence(pets, IdIsNot(id));
    FilterKeepsMatches(pets, IdIsNot(id));
    Filter(pets, IdIsNot(id))
  }

  /** Each pet either has the id or does not. */
  lemma {:induction false} CountSplit(pets: seq<Pet>, id: string)
    ensures Count(pets, IdIs(id)) + Count(pets, IdIsNot(id)) == |pets|
  {
    if pets != [] {
      CountSplit(pets[1..], id);
    }
  }

  /** After an add, looking the id up finds the new pet only if no earlier pet
      already had that id: a duplicate id leaves the new pet unreachable by
      view and edit. */
  lemma FindAfterAppend(pets: seq<Pet>, p: Pet, id: string)
    ensures FindById(pets + [p], id) ==
      if HasId(pets, id) then FindById(pets, id)
      else if p.id == id then Some(p)
      else None
  {
    FindAppend(pets, p, IdIs(id));
  }

  /** A successful add followed by a lookup of a fresh id finds exactly the
      added pet. */
  lemma AddThenFind(pets: seq<Pet>, d: PetDraft, id: string)
    requires !HasId(pets, id)
    ensures FindById(pets + [WithId(d, id)], id) == Some(WithId(d, id))
  {
    FindAfterAppend(pets, WithId(d, id), id);
  }

  /** After an update, the selection is what a lookup of its id finds. */
  lemma UpdateThenFind(pets: seq<Pet>, sel: Pet)
    requires HasId(pets, sel.id)
    ensures FindById(ReplaceById(pets, sel), sel.id) == Some(sel)
  {
    var r := ReplaceById(pets, sel);
    var i :| 0 <= i < |pets| && pets[i].id == sel.id;
    assert r[i].id == sel.id;
    assert HasId(r, sel.id);
    var f := FindById(r, sel.id);
    assert f.Some?;
    var j :| IsFirstMatch(r, IdIs(sel.id), j) && r[j] == f.value;
    assert pets[j].id == sel.id;
  }

  /** Saving the same selection twice changes nothing the second time. */
  lemma {:induction false} ReplaceIdempotent(pets: seq<Pet>, sel: Pet)
    ensures ReplaceById(ReplaceById(pets, sel), sel) == ReplaceById(pets, sel)
  {
    var once := ReplaceById(pets, sel);
    var twice := ReplaceById(once, sel);
    assert forall i :: 0 <= i < |pets| ==> twice[i] == once[i];
  }

  /** Updating a pet and then deleting it by id leaves the same list as
      deleting it directly. */
  lemma {:induction false} RemoveAfterReplace(pets: seq<Pet>, sel: Pet)
    ensures RemoveById(ReplaceById(pets, sel), sel.id) == RemoveById(pets, sel.id)
  {
    if pets != [] {
      RemoveAfterReplace(pets[1..], sel);
      var head := if pets[0].id == sel.id then sel else pets[0];
      assert ReplaceById(pets, sel) == [head] + ReplaceById(pets[1..], sel);
      FilterAppend([head], ReplaceById(pets[1..], sel), IdIsNot(sel.id));
      FilterAppend([pets[0]], pets[1..], IdIsNot(sel.id));
      assert pets == [pets[0]] + pets[1..];
    }
  }

  /** Deleting the id of a freshly added pet also deletes every earlier pet
      that shares that id. */
  lemma AddThenRemove(pets: seq<Pet>, d: PetDraft, id: string)
    ensures RemoveById(pets + [WithId(d, id)], id) == RemoveById(pets, id)
  {
    FilterAppend(pets, [WithId(d, id)], IdIsNot(id));
  }

  /** After a delete no pet with that id is left, so a second delete is a
      no-op. */
  lemma RemoveIdempotent(pets: seq<Pet>, id: string)
    ensures RemoveById(RemoveById(pets, id), id) == RemoveById(pets, id)
  {
    FilterAllKept(RemoveById(pets, id), IdIsNot(id));
  }

  /** The pet list screen's state. */
  class PetsList {
    var pets: seq<Pet>
    var selectedPet: Option<Pet>
    var newPet: PetDraft
    var isAddPetOpen: bool
    var isViewPetOpen: bool
    var isEditPetOpen: bool

    /** The selection always comes from a lookup in the list. Update and
        delete clear the selection, and add only appends, which keeps every
        existing id. So a selected pet's id is always in the list. */
    ghost predicate Valid()
      reads this
    {
      selectedPet.Some? ==> HasId(pets, selectedPet.value.id)
    }

    /** The screen as it mounts over the initial pets. */
    constructor (initial: seq<Pet>)
      ensures pets == initial && selectedPet == None && newPet == InitialDraft()
      ensures !isAddPetOpen && !isViewPetOpen && !isEditPetOpen
      ensures Valid()
    {
      pets := initial;
      selectedPet := None;
      newPet := InitialDraft();
      isAddPetOpen, isViewPetOpen, isEditPetOpen := false, false, false;
    }

    /** The "Add Pet" handler; `id` stands for the time-derived id. */
    method AddPet(id: string) returns (outcome: AddOutcome)
      requires Valid()
      modifies this
      ensures Valid()
      ensures outcome == MissingRequiredFields <==> !IsComplete(old(newPet))
      ensures outcome == MissingRequiredFields ==> unchanged(this)
      ensures outcome == Added ==>
        && pets == old(pets) + [WithId(old(newPet), id)]
        && !isAddPetOpen && newPet == ClearedDraft()
        && selectedPet == old(selectedPet)
        && isViewPetOpen == old(isViewPetOpen) && isEditPetOpen == old(isEditPetOpen)
    {
      if !IsComplete(newPet) {
        return MissingRequiredFields;
      }
      if selectedPet.Some? {
        ghost var i :| 0 <= i < |pets| && pets[i].id == selectedPet.value.id;
        assert (pets + [WithId(newPet, id)])[i] == pets[i];
      }
      pets := pets + [WithId(newPet, id)];
      isAddPetOpen := false;
      newPet := ClearedDraft();
      outcome := Added;
    }

    /** The "View" handler: select the first pet with `id` and open the view
        dialog; nothing happens if no pet has `id`. */
    method ViewPet(id: string)
      requires Valid()
      modifies this
      ensures Valid()
      ensures FindById(old(pets), id).None? ==> unchanged(this)
      ensures FindById(old(pets), id).Some? ==>
        && selectedPet == FindById(old(pets), id) && isViewPetOpen
        && pets == old(pets) && newPet == old(newPet)
        && isAddPetOpen == old(isAddPetOpen) && isEditPetOpen == old(isEditPetOpen)
    {
      var found := FindById(pets, id);
      if found.Some? {
        selectedPet := found;
        isViewPetOpen := true;
      }
    }

    /** The "Edit" handler: as ViewPet, but opens the edit dialog. */
    method EditPet(id: string)
      requires Valid()
      modifies this
      ensures Valid()
      ensures FindById(old(pets), id).None? ==> unchanged(this)
      ensures FindById(old(pets), id).Some? ==>
        && selectedPet == FindById(old(pets), id) && isEditPetOpen
        && pets == old(pets) && newPet == old(newPet)
        && isAddPetOpen == old(isAddPetOpen) && isViewPetOpen == old(isViewPetOpen)
    {
      var found := FindById(pets, id);
      if found.Some? {
        selectedPet := found;
        isEditPetOpen := true;
      }
    }

    /** "Save Changes": every pet sharing the selection's id becomes the
        selection; the selection is cleared and the edit dialog closes. */
    method UpdatePet()
      requires Valid()
      modifies this
      ensures Valid()
      ensures old(selectedPet).None? ==> unchanged(this)
      ensures old(selectedPet).Some? ==>
        && pets == ReplaceById(old(pets), old(selectedPet).value)
        && selectedPet == None && !isEditPetOpen
        && newPet == old(newPet)
        && isAddPetOpen == old(isAddPetOpen) && isViewPetOpen == old(isViewPetOpen)
      ensures old(selectedPet).Some? ==>
        FindById(pets, old(selectedPet).value.id) == old(selectedPet)
    {
      if selectedPet.Some? {
        UpdateThenFind(pets, selectedPet.value);
        pets := ReplaceById(pets, selectedPet.value);
        isEditPetOpen := false;
        selectedPet := None;
      }
    }

    /** "Delete": every pet sharing the selection's id is removed; the
        selection is cleared and the view dialog closes. */
    method DeletePet()
      requires Valid()
      modifies this
      ensures Valid()
      ensures old(selectedPet).None? ==> unchanged(this)
      ensures old(selectedPet).Some? ==>
        && pets == RemoveById(old(pets), old(selectedPet).value.id)
        && selectedPet == None && !isViewPetOpen
        && newPet == old(newPet)
        && isAddPetOpen == old(isAddPetOpen) && isEditPetOpen == old(isEditPetOpen)
    {
      if selectedPet.Some? {
        pets := RemoveById(pets, selectedPet.value.id);
        isViewPetOpen := false;
        selectedPet := None;
      }
    }

    /** The add card opens the add dialog. */
    method OpenAddDialog()
      requires Valid()
      modifies this
      ensures Valid()
      ensures isAddPetOpen
      ensures pets == old(pets) && selectedPet == old(selectedPet) && newPet == old(newPet)
      ensures isViewPetOpen == old(isViewPetOpen) && isEditPetOpen == old(isEditPetOpen)
    {
      isAddPetOpen := true;
    }

    /** The view dialog's "Edit" button swaps the view dialog for the edit
        dialog, keeping the selection. */
    method SwitchViewToEdit()
      requires Valid()
      modifies this
      ensures Valid()
      ensures !isViewPetOpen && isEditPetOpen
      ensures pets == old(pets) && selectedPet == old(selectedPet) && newPet == old(newPet)
      ensures isAddPetOpen == old(isAddPetOpen)
    {
      isViewPetOpen := false;
      isEditPetOpen := true;
    }

    /** A change in the add form: the draft becomes `d`. */
    method EditDraft(d: PetDraft)
      requires Valid()
      modifies this
      ensures Valid()
      ensures newPet == d
      ensures pets == old(pets) && selectedPet == old(selectedPet)
      ensures isAddPetOpen == old(isAddPetOpen) && isViewPetOpen == old(isViewPetOpen)
      ensures isEditPetOpen == old(isEditPetOpen)
    {
      newPet := d;
    }

    /** The add form's age field: the draft's age becomes the parsed input or 0. */
    method EditDraftAge(parsed: Option<int>)
      requires Valid()
      modifies this
      ensures Valid()
      ensures newPet == old(newPet).(age := AgeFromInput(parsed))
      ensures pets == old(pets) && selectedPet == old(selectedPet)
      ensures isAddPetOpen == old(isAddPetOpen) && isViewPetOpen == old(isViewPetOpen)
      ensures isEditPetOpen == old(isEditPetOpen)
    {
      newPet := newPet.(age := AgeFromInput(parsed));
    }

    /** A change in the edit form: every field of the selection but its id
        takes the form's value. The form is shown only while a pet is
        selected, so without a selection nothing happens. */
    method EditSelected(d: PetDraft)
      requires Valid()
      modifies this
      ensures Valid()
      ensures old(selectedPet).None? ==> unchanged(this)
      ensures old(selectedPet).Some? ==>
        selectedPet == Some(WithId(d, old(selectedPet).value.id))
      ensures pets == old(pets) && newPet == old(newPet)
      ensures isAddPetOpen == old(isAddPetOpen) && isViewPetOpen == old(isViewPetOpen)
      ensures isEditPetOpen == old(isEditPetOpen)
    {
      if selectedPet.Some? {
        selectedPet := Some(WithId(d, selectedPet.value.id));
      }
    }

    /** The edit form's age field. */
    method EditSelectedAge(parsed: Option<int>)
      requires Valid()
      modifies this
      ensures Valid()
      ensures old(selectedPet).None? ==> unchanged(this)
      ensures old(selectedPet).Some? ==>
        selectedPet == Some(old(selectedPet).value.(age := AgeFromInput(parsed)))
      ensures pets == old(pets) && newPet == old(newPet)
      ensures isAddPetOpen == old(isAddPetOpen) && isViewPetOpen == old(isViewPetOpen)
      ensures isEditPetOpen == old(isEditPetOpen)
    {
      if selectedPet.Some? {
        selectedPet := Some(selectedPet.value.(age := AgeFromInput(parsed)));
      }
    }
  }
}

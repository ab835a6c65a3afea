/** The add/edit pet screen's state holder (`PetViewModel`): the form record
    with one error per field, the list of the user's pets, and the pet being
    edited. Saving validates every field, then adds or updates the pet through
    the pet repository; deleting removes the pet and filters the list. */
module PetForm {
  import opened Wrappers
  import opened Domain
  import opened Strings
  import PetRepository

  const NameRequired := "El nombre es requerido"
  const SpeciesRequired := "La especie es requerida"
  const BreedRequired := "La raza es requerida"
  const AgeRequired := "La edad es requerida"
  const AgeNotNumber := "La edad debe ser un número"
  const AgeOutOfRange := "La edad debe estar entre 0 y 50"
  const WeightRequired := "El peso es requerido"
  const WeightNotNumber := "El peso debe ser un número"
  const WeightOutOfRange := "El peso debe estar entre 0 y 200 kg"
  const GenderRequired := "El género es requerido"
  const ColorRequired := "El color es requerido"
  const SaveFailedDefault := "Error al guardar mascota"
  const DeleteFailedPrefix := "Error al eliminar mascota: "

  /** `PetFormState`: the text of each input, its error, and the submit flags. */
  datatype PetFormState = PetFormState(
    name: string,
    species: string,
    breed: string,
    age: string,
    weight: string,
    gender: string,
    color: string,
    imageUrl: Option<string>,
    nameError: Option<string>,
    speciesError: Option<string>,
    breedError: Option<string>,
    ageError: Option<string>,
    weightError: Option<string>,
    genderError: Option<string>,
    colorError: Option<string>,
    isLoading: bool,
    errorMessage: Option<string>,
    isSuccess: bool)

  /** `PetFormState()` with every default. */
  const EmptyForm := PetFormState("", "", "", "", "", "", "", None,
                                  None, None, None, None, None, None, None, false, None, false)

  /** The repository call a valid save makes. */
  datatype PetCall = AddCall(pet: Pet) | UpdateCall(pet: Pet)

  /** The rule for a required text field: its message exactly when the text is blank. */
  function RequiredError(value: string, message: string): (e: Option<string>)
    ensures e.Some? <==> IsBlank(value)
    ensures e.Some? ==> e.value == message
  {
    if IsBlank(value) then Some(message) else None
  }

  /** The age rule: required, then an integer, then within 0..50. */
  function AgeError(age: string): (e: Option<string>)
    ensures e == Some(AgeRequired) <==> IsBlank(age)
    ensures e == Some(AgeNotNumber) <==> !IsBlank(age) && ParseInt(age).None?
    ensures e == Some(AgeOutOfRange) <==> ParseInt(age).Some? && !(0 <= ParseInt(age).value <= 50)
    ensures e.None? <==> ParseInt(age).Some? && 0 <= ParseInt(age).value <= 50
  {
    if IsBlank(age) then Some(AgeRequired)
    else match ParseInt(age)
      case None => Some(AgeNotNumber)
      case Some(n) => if n < 0 || n > 50 then Some(AgeOutOfRange) else None
  }

  /** The weight rule: required, then a number, then above 0 and at most 200. */
  function WeightError(weight: string, parseDecimal: string -> Option<real>): (e: Option<string>)
    ensures e == Some(WeightRequired) <==> IsBlank(weight)
    ensures e == Some(WeightNotNumber) <==> !IsBlank(weight) && parseDecimal(weight).None?
    ensures e == Some(WeightOutOfRange) <==>
              !IsBlank(weight) && parseDecimal(weight).Some? && !(0.0 < parseDecimal(weight).value <= 200.0)
    ensures e.None? <==> !IsBlank(weight) && parseDecimal(weight).Some? && 0.0 < parseDecimal(weight).value <= 200.0
  {
    if IsBlank(weight) then Some(WeightRequired)
    else match parseDecimal(weight)
      case None => Some(WeightNotNumber)
      case Some(w) => if w <= 0.0 || w > 200.0 then Some(WeightOutOfRange) else None
  }

  /** The form after `validateForm`: all seven checks applied, none skipped. A
      check that fails writes its message; one that passes leaves that field's
      error as it was. */
  function ValidatedForm(f: PetFormState, parseDecimal: string -> Option<real>): PetFormState {
    f.(nameError := RequiredError(f.name, NameRequired).OrElse(f.nameError),
       speciesError := RequiredError(f.species, SpeciesRequired).OrElse(f.speciesError),
       breedError := RequiredError(f.breed, BreedRequired).OrElse(f.breedError),
       ageError := AgeError(f.age).OrElse(f.ageError),
       weightError := WeightError(f.weight, parseDecimal).OrElse(f.weightError),
       genderError := RequiredError(f.gender, GenderRequired).OrElse(f.genderError),
       colorError := RequiredError(f.color, ColorRequired).OrElse(f.colorError))
  }

  /** What `validateForm` returns: no check failed. */
  predicate FormIsValid(f: PetFormState, parseDecimal: string -> Option<real>) {
    && RequiredError(f.name, NameRequired).None?
    && RequiredError(f.species, SpeciesRequired).None?
    && RequiredError(f.breed, BreedRequired).None?
    && AgeError(f.age).None?
    && WeightError(f.weight, parseDecimal).None?
    && RequiredError(f.gender, GenderRequired).None?
    && RequiredError(f.color, ColorRequired).None?
  }

  /** Validation changes only the seven field errors; a valid form comes out
      unchanged, and an invalid one comes out with at least one error showing. */
  lemma ValidationOutcome(f: PetFormState, parseDecimal: string -> Option<real>)
    ensures var g := ValidatedForm(f, parseDecimal);
            g.(nameError := f.nameError, speciesError := f.speciesError, breedError := f.breedError,
               ageError := f.ageError, weightError := f.weightError, genderError := f.genderError,
               colorError := f.colorError) == f
    ensures FormIsValid(f, parseDecimal) ==> ValidatedForm(f, parseDecimal) == f
    ensures !FormIsValid(f, parseDecimal) ==>
              var g := ValidatedForm(f, parseDecimal);
              g.nameError.Some? || g.speciesError.Some? || g.breedError.Some? || g.ageError.Some?
              || g.weightError.Some? || g.genderError.Some? || g.colorError.Some?
  {
  }

  /** Every failing check shows its own message, whatever the other fields hold. */
  lemma EveryCheckRuns(f: PetFormState, parseDecimal: string -> Option<real>)
    ensures var g := ValidatedForm(f, parseDecimal);
            && (IsBlank(f.name) ==> g.nameError == Some(NameRequired))
            && (IsBlank(f.species) ==> g.speciesError == Some(SpeciesRequired))
            && (IsBlank(f.breed) ==> g.breedError == Some(BreedRequired))
            && (AgeError(f.age).Some? ==> g.ageError == AgeError(f.age))
            && (WeightError(f.weight, parseDecimal).Some? ==> g.weightError == WeightError(f.weight, parseDecimal))
            && (IsBlank(f.gender) ==> g.genderError == Some(GenderRequired))
            && (IsBlank(f.color) ==> g.colorError == Some(ColorRequired))
  {
  }

  /** The age checks of the unit tests: "abc", "60" and "5". */
  lemma AgeExamples()
    ensures AgeError("abc") == Some(AgeNotNumber)
    ensures AgeError("60") == Some(AgeOutOfRange)
    ensures AgeError("5") == None
  {
    assert !IsWhitespace('a');
    assert !IsWhitespace('6');
    assert "60"[1..] == "0";
    assert DigitsValue("60") == 60 by {
      assert "60"[..1] == "6";
    }
    assert !IsWhitespace('5');
  }

  /** The age field accepts the decimal text of exactly the integers 0 to 50. */
  lemma AgeAcceptsExactly(n: int)
    requires InInt32(n)
    ensures AgeError(IntToString(n)).None? <==> 0 <= n <= 50
  {
    ParseIntToString(n);
  }

  /** The pet a valid form describes. */
  function PetOf(f: PetFormState, id: string, userId: string, parseDecimal: string -> Option<real>): Pet
    requires ParseInt(f.age).Some? && parseDecimal(f.weight).Some?
  {
    Pet(id := id, name := f.name, species := f.species, breed := f.breed,
        age := ParseInt(f.age).value, weight := parseDecimal(f.weight).value,
        gender := f.gender, color := f.color, imageUrl := f.imageUrl, userId := userId)
  }

  /** A pet built from a valid form satisfies every rule the form checks. */
  lemma ValidFormGivesValidPet(f: PetFormState, id: string, userId: string, parseDecimal: string -> Option<real>)
    requires FormIsValid(f, parseDecimal)
    ensures ParseInt(f.age).Some? && parseDecimal(f.weight).Some?
    ensures var p := PetOf(f, id, userId, parseDecimal);
            && p.id == id && p.userId == userId
            && !IsBlank(p.name) && !IsBlank(p.species) && !IsBlank(p.breed)
            && !IsBlank(p.gender) && !IsBlank(p.color)
            && 0 <= p.age <= 50 && 0.0 < p.weight <= 200.0
  {
  }

  /** The form `startEditingPet` shows: the pet's values, no errors, both flags down. */
  function EditForm(pet: Pet, showDecimal: real -> string): PetFormState {
    EmptyForm.(name := pet.name, species := pet.species, breed := pet.breed,
               age := IntToString(pet.age), weight := showDecimal(pet.weight),
               gender := pet.gender, color := pet.color, imageUrl := pet.imageUrl)
  }

  /** Editing a pet and saving the untouched form gives back the same pet, when
      the decimal text of its weight reads back as the weight. */
  lemma EditRoundTrip(pet: Pet, parseDecimal: string -> Option<real>, showDecimal: real -> string)
    requires InInt32(pet.age)
    requires parseDecimal(showDecimal(pet.weight)) == Some(pet.weight)
    ensures var f := EditForm(pet, showDecimal);
            ParseInt(f.age).Some? && parseDecimal(f.weight).Some?
            && PetOf(f, pet.id, pet.userId, parseDecimal) == pet
  {
    ParseIntToString(pet.age);
  }

  /** A pet that meets the rules passes validation as soon as it is opened for editing. */
  lemma EditFormOfValidPetIsValid(pet: Pet, parseDecimal: string -> Option<real>, showDecimal: real -> string)
    requires InInt32(pet.age) && 0 <= pet.age <= 50
    requires parseDecimal(showDecimal(pet.weight)) == Some(pet.weight) && 0.0 < pet.weight <= 200.0
    requires !IsBlank(showDecimal(pet.weight))
    requires !IsBlank(pet.name) && !IsBlank(pet.species) && !IsBlank(pet.breed)
    requires !IsBlank(pet.gender) && !IsBlank(pet.color)
    ensures FormIsValid(EditForm(pet, showDecimal), parseDecimal)
  {
    ParseIntToString(pet.age);
  }

  /** The form after a save's repository result: success raises `isSuccess` and
      clears the message; failure shows the exception message or the default. */
  function SaveOutcome(f: PetFormState, result: Result<Pet>): (g: PetFormState)
    ensures !g.isLoading
    ensures result.Success? ==> g == f.(isLoading := false, isSuccess := true, errorMessage := None)
    ensures result.Failure? ==>
              g == f.(isLoading := false, errorMessage := Some(result.message.GetOr(SaveFailedDefault)))
    ensures result == Failure(None) ==> g.errorMessage == Some(SaveFailedDefault)
    ensures result.Failure? && result.message.Some? ==> g.errorMessage == result.message
  {
    match result
    case Success(_) => f.(isLoading := false, isSuccess := true, errorMessage := None)
    case Failure(message) => f.(isLoading := false, errorMessage := Some(message.GetOr(SaveFailedDefault)))
  }

  /** Through the pet repository, a failed save always shows the repository's
      fixed message, never the default. */
  lemma SaveFailureMessage(f: PetFormState, pet: Pet, editing: bool,
                           createPet: PetRequest -> Remote<PetResponse>,
                           updatePet: (string, PetRequest) -> Remote<PetResponse>)
    ensures var result := if editing then PetRepository.UpdatePet(pet, updatePet) else PetRepository.AddPet(pet, createPet);
            result.Failure? ==>
              SaveOutcome(f, result).errorMessage
              == Some(if editing then PetRepository.UpdateFailed else PetRepository.CreateFailed)
  {
  }

  /** `pets.filter { it.id != petId }`. */
  function Without(pets: seq<Pet>, petId: string): (r: seq<Pet>)
    ensures forall p :: p in r <==> p in pets && p.id != petId
    ensures |r| <= |pets|
  {
    if pets == [] then []
    else if pets[0].id != petId then [pets[0]] + Without(pets[1..], petId)
    else Without(pets[1..], petId)
  }

  /** Filtering keeps the order of what is left: it distributes over concatenation. */
  lemma {:induction false} WithoutAppend(a: seq<Pet>, b: seq<Pet>, petId: string)
    ensures Without(a + b, petId) == Without(a, petId) + Without(b, petId)
  {
    if a != [] {
      assert (a + b)[0] == a[0] && (a + b)[1..] == a[1..] + b;
      WithoutAppend(a[1..], b, petId);
      if a[0].id != petId {
        assert [a[0]] + (Without(a[1..], petId) + Without(b, petId))
            == ([a[0]] + Without(a[1..], petId)) + Without(b, petId);
      }
    } else {
      assert a + b == b;
    }
  }

  /** Removing the same id a second time changes nothing. */
  lemma {:induction false} WithoutIdempotent(pets: seq<Pet>, petId: string)
    ensures Without(Without(pets, petId), petId) == Without(pets, petId)
  {
    if pets != [] {
      WithoutIdempotent(pets[1..], petId);
    }
  }

  /** The message of a failed delete: the prefix and the exception message,
      which Kotlin's string template writes as "null" when there is none. */
  function DeleteFailureMessage(message: Option<string>): (m: string)
    ensures DeleteFailedPrefix <= m
  {
    DeleteFailedPrefix + message.GetOr("null")
  }

  class PetViewModel {
    var form: PetFormState
    var pets: seq<Pet>
    var editingPet: Option<Pet>
    /** The signed-in user, owner of every pet saved here. */
    const userId: string
    /** Kotlin's `String.toDouble()`, left uninterpreted. */
    const parseDecimal: string -> Option<real>
    /** Kotlin's `Double.toString()`, left uninterpreted. */
    const showDecimal: real -> string

    /** A fresh view-model: empty form, no pets, nothing being edited. The
        initial `loadPets` is the next step, `LoadPets`. */
    constructor (userId: string, parseDecimal: string -> Option<real>, showDecimal: real -> string)
      ensures form == EmptyForm && pets == [] && editingPet == None
      ensures this.userId == userId && this.parseDecimal == parseDecimal && this.showDecimal == showDecimal
    {
      this.userId := userId;
      this.parseDecimal := parseDecimal;
      this.showDecimal := showDecimal;
      form := EmptyForm;
      pets := [];
      editingPet := None;
    }

    /** `loadPets` (and `refreshPets`): the repository's list, or empty when it fails. */
    method LoadPets(reply: Remote<seq<PetResponse>>)
      modifies this
      ensures form == old(form) && editingPet == old(editingPet)
      ensures reply.Fault? ==> pets == []
      ensures reply.Reply? ==> pets == PetRepository.ToPets(reply.body, userId)
      ensures reply.Reply? ==> |pets| == |reply.body|
                               && (forall i :: 0 <= i < |pets| ==> pets[i].id == reply.body[i].id)
                               && (forall p :: p in pets ==> p.userId == userId)
    {
      match PetRepository.GetPetsByUser(userId, reply) {
        case Success(list) => pets := list;
        case Failure(_) => pets := [];
      }
    }

    method OnNameChange(name: string)
      modifies this
      ensures form == old(form).(name := name, nameError := None)
      ensures pets == old(pets) && editingPet == old(editingPet)
    {
      form := form.(name := name, nameError := None);
    }

    method OnSpeciesChange(species: string)
      modifies this
      ensures form == old(form).(species := species, speciesError := None)
      ensures pets == old(pets) && editingPet == old(editingPet)
    {
      form := form.(species := species, speciesError := None);
    }

    method OnBreedChange(breed: string)
      modifies this
      ensures form == old(form).(breed := breed, breedError := None)
      ensures pets == old(pets) && editingPet == old(editingPet)
    {
      form := form.(breed := breed, breedError := None);
    }

    method OnAgeChange(age: string)
      modifies this
      ensures form == old(form).(age := age, ageError := None)
      ensures pets == old(pets) && editingPet == old(editingPet)
    {
      form := form.(age := age, ageError := None);
    }

    method OnWeightChange(weight: string)
      modifies this
      ensures form == old(form).(weight := weight, weightError := None)
      ensures pets == old(pets) && editingPet == old(editingPet)
    {
      form := form.(weight := weight, weightError := None);
    }

    method OnGenderChange(gender: string)
      modifies this
      ensures form == old(form).(gender := gender, genderError := None)
      ensures pets == old(pets) && editingPet == old(editingPet)
    {
      form := form.(gender := gender, genderError := None);
    }

    method OnColorChange(color: string)
      modifies this
      ensures form == old(form).(color := color, colorError := None)
      ensures pets == old(pets) && editingPet == old(editingPet)
    {
      form := form.(color := color, colorError := None);
    }

    /** `onImageSelected`: sets the image and nothing else, not even an error. */
    method OnImageSelected(imageUri: Option<string>)
      modifies this
      ensures form == old(form).(imageUrl := imageUri)
      ensures pets == old(pets) && editingPet == old(editingPet)
    {
      form := form.(imageUrl := imageUri);
    }

    method ClearError()
      modifies this
      ensures form == old(form).(errorMessage := None)
      ensures pets == old(pets) && editingPet == old(editingPet)
    {
      form := form.(errorMessage := None);
    }

    /** `startEditingPet`: remembers the pet and replaces the whole form with its values. */
    method StartEditingPet(pet: Pet)
      modifies this
      ensures editingPet == Some(pet)
      ensures form == EditForm(pet, showDecimal)
      ensures pets == old(pets)
    {
      editingPet := Some(pet);
      form := EmptyForm.(name := pet.name, species := pet.species, breed := pet.breed,
                         age := IntToString(pet.age), weight := showDecimal(pet.weight),
                         gender := pet.gender, color := pet.color, imageUrl := pet.imageUrl);
    }

    /** `clearForm`: defaults everywhere and nothing being edited. */
    method ClearForm()
      modifies this
      ensures editingPet == None && form == EmptyForm
      ensures pets == old(pets)
    {
      editingPet := None;
      form := EmptyForm;
    }

    method ResetSuccessState()
      modifies this
      ensures form == old(form).(isSuccess := false)
      ensures pets == old(pets) && editingPet == old(editingPet)
    {
      form := form.(isSuccess := false);
    }

    /** `validateForm`: every check runs, each failure writes its error, and the
        flag says whether none failed. */
    method ValidateForm() returns (isValid: bool)
      modifies this
      ensures form == ValidatedForm(old(form), parseDecimal)
      ensures isValid <==> FormIsValid(old(form), parseDecimal)
      ensures pets == old(pets) && editingPet == old(editingPet)
    {
      isValid := true;
      var nameError, speciesError, breedError := form.nameError, form.speciesError, form.breedError;
      var ageError, weightError := form.ageError, form.weightError;
      var genderError, colorError := form.genderError, form.colorError;
      if IsBlank(form.name) {
        nameError := Some(NameRequired);
        isValid := false;
      }
      if IsBlank(form.species) {
        speciesError := Some(SpeciesRequired);
        isValid := false;
      }
      if IsBlank(form.breed) {
        breedError := Some(BreedRequired);
        isValid := false;
      }
      var ageCheck := AgeError(form.age);
      if ageCheck.Some? {
        ageError := ageCheck;
        isValid := false;
      }
      var weightCheck := WeightError(form.weight, parseDecimal);
      if weightCheck.Some? {
        weightError := weightCheck;
        isValid := false;
      }
      if IsBlank(form.gender) {
        genderError := Some(GenderRequired);
        isValid := false;
      }
      if IsBlank(form.color) {
        colorError := Some(ColorRequired);
        isValid := false;
      }
      form := form.(nameError := nameError, speciesError := speciesError, breedError := breedError,
                    ageError := ageError, weightError := weightError,
                    genderError := genderError, colorError := colorError);
    }

    /** `savePet`: an invalid form only shows its errors and calls nothing; a
        valid one builds the pet (the edited pet's id or "", this user) and
        updates it when a pet is being edited, adds it otherwise. The reload
        that follows a success is the separate step `LoadPets`. */
    method SavePet(createPet: PetRequest -> Remote<PetResponse>,
                   updatePet: (string, PetRequest) -> Remote<PetResponse>)
      returns (call: Option<PetCall>)
      modifies this
      ensures pets == old(pets) && editingPet == old(editingPet)
      ensures !FormIsValid(old(form), parseDecimal) ==>
                call == None && form == ValidatedForm(old(form), parseDecimal)
      ensures FormIsValid(old(form), parseDecimal) ==>
                ParseInt(old(form).age).Some? && parseDecimal(old(form).weight).Some?
                && var id := if old(editingPet).Some? then old(editingPet).value.id else "";
                   var pet := PetOf(old(form), id, userId, parseDecimal);
                   call == Some(if old(editingPet).Some? then UpdateCall(pet) else AddCall(pet))
                   && form == SaveOutcome(old(form),
                                          if old(editingPet).Some? then PetRepository.UpdatePet(pet, updatePet)
                                          else PetRepository.AddPet(pet, createPet))
    {
      var isValid := ValidateForm();
      if !isValid {
        return None;
      }
      form := form.(isLoading := true);
      var f := form;
      var id := if editingPet.Some? then editingPet.value.id else "";
      var pet := Pet(id := id, name := f.name, species := f.species, breed := f.breed,
                     age := ParseInt(f.age).value, weight := parseDecimal(f.weight).value,
                     gender := f.gender, color := f.color, imageUrl := f.imageUrl, userId := userId);
      var result;
      if editingPet.Some? {
        call := Some(UpdateCall(pet));
        result := PetRepository.UpdatePet(pet, updatePet);
      } else {
        call := Some(AddCall(pet));
        result := PetRepository.AddPet(pet, createPet);
      }
      match result {
        case Success(_) =>
          form := form.(isLoading := false, isSuccess := true, errorMessage := None);
        case Failure(message) =>
          form := form.(isLoading := false, errorMessage := Some(message.GetOr(SaveFailedDefault)));
      }
    }

    /** `deletePet`: on success exactly the pets with that id leave the list
        (the reload that follows is the separate step `LoadPets`); on failure
        the list stays and the message names the repository's reason. */
    method DeletePet(petId: string, deletePet: string -> Remote<()>)
      modifies this
      ensures editingPet == old(editingPet)
      ensures deletePet(petId).Reply? ==> pets == Without(old(pets), petId) && form == old(form)
      ensures deletePet(petId).Fault? ==>
                pets == old(pets)
                && form == old(form).(errorMessage := Some(DeleteFailedPrefix + PetRepository.DeleteFailed))
    {
      match PetRepository.DeletePet(petId, deletePet) {
        case Success(_) =>
          pets := Without(pets, petId);
        case Failure(message) =>
          form := form.(errorMessage := Some(DeleteFailureMessage(message)));
      }
    }
  }
}

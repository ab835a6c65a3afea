/** The pet repository (`PetRepository`): every operation is one call to the
    pets API, whose reply is mapped to the local `Pet` record, and whose
    failure is replaced by a fixed Spanish message. The API is a parameter:
    a function from the request to `Reply(body)` or `Fault(cause)`. */
module PetRepository {
  import opened Wrappers
  import opened Domain

  const FetchFailed := "No se pudo conectar con el servidor. Verifica tu conexión."
  const CreateFailed := "No se pudo crear la mascota. Verifica tu conexión."
  const UpdateFailed := "No se pudo actualizar la mascota. Verifica tu conexión."
  const DeleteFailed := "No se pudo eliminar la mascota. Verifica tu conexión."

  /** `PetResponse.toPet(userId)`: the server's pet, owned by `userId`. */
  function ToPet(r: PetResponse, userId: string): Pet {
    Pet(id := r.id, name := r.name, species := r.species, breed := r.breed,
        age := r.age, weight := r.weight, gender := r.gender, color := r.color,
        imageUrl := r.imageUrl, userId := userId)
  }

  /** `Pet.toPetRequest()`: the editable fields of a pet, as the API takes them. */
  function ToPetRequest(p: Pet): PetRequest {
    PetRequest(name := p.name, species := p.species, breed := p.breed,
               age := p.age, weight := p.weight, gender := p.gender,
               color := p.color, imageUrl := p.imageUrl)
  }

  /** The part of a reply that `ToPet` keeps: everything but the owner and the timestamps. */
  function PetFields(r: PetResponse): PetRequest {
    PetRequest(r.name, r.species, r.breed, r.age, r.weight, r.gender, r.color, r.imageUrl)
  }

  /** Round trip: converting a reply to a pet and back to a request loses none
      of the fields from the name to the image. */
  lemma RequestOfPetOfResponse(r: PetResponse, userId: string)
    ensures ToPetRequest(ToPet(r, userId)) == PetFields(r)
    ensures ToPet(r, userId).id == r.id && ToPet(r, userId).userId == userId
  {
  }

  /** `toPet` discards the reply's own owner and its timestamps. */
  lemma ToPetIgnoresServerMetadata(r: PetResponse, userId: string, owner: string, created: string, updated: string)
    ensures ToPet(r.(userId := owner, createdAt := created, updatedAt := updated), userId) == ToPet(r, userId)
  {
  }

  /** `toPetRequest` drops the id and the owner: two pets that differ only there send the same request. */
  lemma ToPetRequestIgnoresIdentity(p: Pet, id: string, userId: string)
    ensures ToPetRequest(p.(id := id, userId := userId)) == ToPetRequest(p)
  {
  }

  /** Reading a pet back from its own request, with its id and owner, gives the pet. */
  lemma PetOfOwnRequest(p: Pet, createdAt: string, updatedAt: string)
    ensures var q := ToPetRequest(p);
            ToPet(PetResponse(p.id, q.name, q.species, q.breed, q.age, q.weight, q.gender,
                              q.color, q.imageUrl, p.userId, createdAt, updatedAt), p.userId) == p
  {
  }

  /** `remotePets.map { it.toPet(userId) }`. */
  function ToPets(rs: seq<PetResponse>, userId: string): (ps: seq<Pet>)
    ensures |ps| == |rs|
    ensures forall i :: 0 <= i < |rs| ==> ps[i].id == rs[i].id && ToPetRequest(ps[i]) == PetFields(rs[i])
    ensures forall p :: p in ps ==> p.userId == userId
  {
    if rs == [] then [] else [ToPet(rs[0], userId)] + ToPets(rs[1..], userId)
  }

  /** `getPetsByUser`: the API's list, in its order, each pet owned by `userId`;
      any failure becomes the fixed connection message. */
  function GetPetsByUser(userId: string, reply: Remote<seq<PetResponse>>): (r: Result<seq<Pet>>)
    ensures r.Success? <==> reply.Reply?
    ensures r.Success? ==> |r.value| == |reply.body|
                           && (forall i :: 0 <= i < |r.value| ==>
                                 r.value[i].id == reply.body[i].id && ToPetRequest(r.value[i]) == PetFields(reply.body[i]))
                           && (forall p :: p in r.value ==> p.userId == userId)
    ensures r.Failure? ==> r == Failure(Some(FetchFailed))
  {
    match reply
    case Reply(body) => Success(ToPets(body, userId))
    case Fault(_) => Failure(Some(FetchFailed))
  }

  /** `addPet`: posts the pet's request; the created pet has the server's id and the caller's owner. */
  function AddPet(pet: Pet, createPet: PetRequest -> Remote<PetResponse>): (r: Result<Pet>)
    ensures r.Success? <==> createPet(ToPetRequest(pet)).Reply?
    ensures r.Success? ==> r.value.id == createPet(ToPetRequest(pet)).body.id && r.value.userId == pet.userId
                           && ToPetRequest(r.value) == PetFields(createPet(ToPetRequest(pet)).body)
    ensures r.Failure? ==> r == Failure(Some(CreateFailed))
  {
    match createPet(ToPetRequest(pet))
    case Reply(response) => Success(ToPet(response, pet.userId))
    case Fault(_) => Failure(Some(CreateFailed))
  }

  /** `updatePet`: puts the pet's request at the pet's own id; the result keeps the caller's owner. */
  function UpdatePet(pet: Pet, updatePet: (string, PetRequest) -> Remote<PetResponse>): (r: Result<Pet>)
    ensures r.Success? <==> updatePet(pet.id, ToPetRequest(pet)).Reply?
    ensures r.Success? ==> r.value.id == updatePet(pet.id, ToPetRequest(pet)).body.id && r.value.userId == pet.userId
                           && ToPetRequest(r.value) == PetFields(updatePet(pet.id, ToPetRequest(pet)).body)
    ensures r.Failure? ==> r == Failure(Some(UpdateFailed))
  {
    match updatePet(pet.id, ToPetRequest(pet))
    case Reply(response) => Success(ToPet(response, pet.userId))
    case Fault(_) => Failure(Some(UpdateFailed))
  }

  /** `deletePet`: succeeds exactly when the API call does. */
  function DeletePet(petId: string, deletePet: string -> Remote<()>): (r: Result<()>)
    ensures r.Success? <==> deletePet(petId).Reply?
    ensures r.Failure? ==> r == Failure(Some(DeleteFailed))
  {
    match deletePet(petId)
    case Reply(_) => Success(())
    case Fault(_) => Failure(Some(DeleteFailed))
  }

  /** `getPetById`: the pet with the owner the reply names, or null on any failure. */
  function GetPetById(petId: string, getPetById: string -> Remote<PetResponse>): (r: Option<Pet>)
    ensures r.Some? <==> getPetById(petId).Reply?
    ensures r.Some? ==> r.value.id == getPetById(petId).body.id && r.value.userId == getPetById(petId).body.userId
                        && ToPetRequest(r.value) == PetFields(getPetById(petId).body)
  {
    match getPetById(petId)
    case Reply(response) => Some(ToPet(response, response.userId))
    case Fault(_) => None
  }

  /** The failure of every write depends on nothing but the operation: two
      APIs that both fail, for whatever causes, give the same result. */
  lemma FailuresIgnoreCause(pet: Pet, petId: string,
                            create1: PetRequest -> Remote<PetResponse>, create2: PetRequest -> Remote<PetResponse>,
                            update1: (string, PetRequest) -> Remote<PetResponse>,
                            update2: (string, PetRequest) -> Remote<PetResponse>,
                            delete1: string -> Remote<()>, delete2: string -> Remote<()>)
    requires create1(ToPetRequest(pet)).Fault? && create2(ToPetRequest(pet)).Fault?
    requires update1(pet.id, ToPetRequest(pet)).Fault? && update2(pet.id, ToPetRequest(pet)).Fault?
    requires delete1(petId).Fault? && delete2(petId).Fault?
    ensures AddPet(pet, create1) == AddPet(pet, create2)
    ensures UpdatePet(pet, update1) == UpdatePet(pet, update2)
    ensures DeletePet(petId, delete1) == DeletePet(petId, delete2)
  {
  }
}

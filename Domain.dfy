/** The records of the app: the local entities (`data/model`) and the wire
    formats of the HTTP API (`data/remote/ApiModels.kt`). Kotlin `Int`, `Long`
    and `Double` are `int`, `int` and `real` here; `String?` is `Option<string>`. */
module Domain {
  import opened Wrappers

  /** A pet; `userId` is its owner. */
  datatype Pet = Pet(
    id: string,
    name: string,
    species: string,
    breed: string,
    age: int,
    weight: real,
    gender: string,
    color: string,
    imageUrl: Option<string>,
    userId: string)

  /** A booking of a veterinary service for a pet. `date` is an epoch timestamp,
      `time` a free-text slot such as "10:00 AM", `status` one of "Pendiente",
      "Confirmada", "Cancelada", "Completada"; `createdAt` is the clock reading
      taken when the record was built. */
  datatype Appointment = Appointment(
    id: string,
    serviceId: string,
    petId: string,
    userId: string,
    date: int,
    time: string,
    status: string,
    notes: Option<string>,
    createdAt: int)

  /** A row of the veterinary service catalogue; `duration` is in minutes. */
  datatype VeterinaryService = VeterinaryService(
    id: string,
    name: string,
    description: string,
    shortDescription: string,
    price: real,
    duration: int,
    category: string,
    imageUrl: Option<string>,
    isAvailable: bool)

  /** An entry of the home screen's schedule: a medicine reminder or a booked service. */
  datatype ScheduleItem =
    | MedicineSchedule(
        id: string, petId: string, petName: string,
        medicineName: string, dosage: string,
        dateTime: int, time: string)
    | ServiceAppointment(
        id: string, petId: string, petName: string,
        serviceName: string, serviceCategory: string, serviceDescription: string,
        dateTime: int, time: string, status: string)

  /** The identity the authentication repository hands to its callers. */
  datatype User = User(id: string, email: string, name: string)

  // Wire formats of the API.

  datatype LoginRequest = LoginRequest(email: string, password: string)

  datatype RegisterRequest = RegisterRequest(name: string, email: string, password: string)

  /** The body of a successful login or registration; `token` is never null. */
  datatype AuthResponse = AuthResponse(
    token: string, tokenType: string, id: string, email: string, name: string, role: string)

  datatype PetRequest = PetRequest(
    name: string,
    species: string,
    breed: string,
    age: int,
    weight: real,
    gender: string,
    color: string,
    imageUrl: Option<string>)

  datatype PetResponse = PetResponse(
    id: string,
    name: string,
    species: string,
    breed: string,
    age: int,
    weight: real,
    gender: string,
    color: string,
    imageUrl: Option<string>,
    userId: string,
    createdAt: string,
    updatedAt: string)
}

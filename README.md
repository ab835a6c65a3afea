# PetHome core, modelled in Dafny

PetHome is an Android app for pet owners. Users sign up and sign in against a
remote authentication API, manage their pets through a remote pets API and book
veterinary services. Bookings live in a local Room database. This project models
the app's logic layer:

- the session store (`SessionManager`);
- the three repositories (`AuthRepository`, `PetRepository`, `ServiceRepository`);
- the two Room tables of services and appointments, with their DAOs;
- the five view-models behind the sign-in, sign-up, pet form, booking and
  schedule screens.

The model proves:

- the exact error messages each form shows, and which checks run;
- that a submit calls its repository only when the form is valid, with which
  request, and what each outcome does to the screen state;
- the session-saving rules and `isLoggedIn`;
- the table semantics (upsert, update, delete, the filtered and ordered queries);
- that the sample catalogue is seeded idempotently;
- that the schedule is a stable, ascending permutation of the appointments whose
  service and pet are both found.

How the model is laid out:

- Objects whose fields the code changes in place are classes:
  - the view-models, whose `MutableStateFlow`s become fields;
  - `SessionManager`, whose preference file becomes a `map<string, string>`;
  - the DAOs, whose tables become a `map` keyed by id;
  - the service repository.
- Remote APIs are function parameters. They return `Reply(body)`, or
  `Fault(cause)` when the call throws.
- Kotlin's `Result` is `Success(value) | Failure(message)`. The message is an
  `Option`, because an exception's message may be null.
- A view-model's submit returns the repository call it made (`None` when it
  made no call).
- The texts of the eight sample services (`CatalogTexts`) are a constant field
  of the service repository, fixed by its constructor. The seed lemmas are
  stated for any eight texts, so they hold for these.

Helper modules:

- `Strings`: `isBlank` with the JVM whitespace set, `String.toInt()`,
  `Int.toString()`, and SQLite's text order.
- `Sorting`: a stable insertion sort, standing for `sortBy` and `ORDER BY`.
- `Tables`: map scans and repeated upserts.
- `Wrappers`: `Option`, `Result` and `Remote`.
- `Domain`: the records of `data/model` and `data/remote/ApiModels.kt`.

Where the code and its documentation disagree, the model follows the code:

- `ServiceRepository.createAppointment` stores the caller's status as given. It
  does not force "Pendiente". Only the booking screen sets that status, when it
  builds the appointment.
- `loadUpcomingItems` is commented "most recent first", but it sorts by
  `dateTime` ascending. The model sorts ascending, and `UpcomingItemsProperties`
  states that order.

## Model

| member | source | states |
|---|---|---|
| Session.Lookup | app/src/main/java/com/example/pethome/data/SessionManager.kt:32-34 | a key's value is present exactly when the key is stored, and is the stored string |
| Session.LoggedIn | app/src/main/java/com/example/pethome/data/SessionManager.kt:64-66 | signed in means both the user id and the token are stored |
| Session.WithUserSession | app/src/main/java/com/example/pethome/data/SessionManager.kt:37-46 | saving a session writes id, email and name, writes the token only when one is given (otherwise the old token survives), and keeps every other key |
| Session.SessionWithTokenIsLoggedIn | app/src/main/java/com/example/pethome/data/SessionManager.kt:37-46 | a session saved with a token is always signed in |
| Session.SessionWithoutTokenKeepsLogin | app/src/main/java/com/example/pethome/data/SessionManager.kt:37-46 | a session saved without a token is signed in exactly when a token was already stored |
| Session.SessionManager.constructor | app/src/main/java/com/example/pethome/data/SessionManager.kt:13-15 | the store opens with what it held before |
| Session.SessionManager.SaveAuthToken | app/src/main/java/com/example/pethome/data/SessionManager.kt:25-29 | only the token key changes; the token reads back and the user fields are unchanged |
| Session.SessionManager.SaveUserSession | app/src/main/java/com/example/pethome/data/SessionManager.kt:37-46 | the store becomes `WithUserSession` of the old one; the three getters read back the arguments; with a token the user is signed in |
| Session.SessionManager.ClearSession | app/src/main/java/com/example/pethome/data/SessionManager.kt:69-73 | the store is empty, every getter yields null and nobody is signed in |
| Session.SessionManager.AuthToken | app/src/main/java/com/example/pethome/data/SessionManager.kt:32-34 | the token, present exactly when stored |
| Session.SessionManager.UserId | app/src/main/java/com/example/pethome/data/SessionManager.kt:49-51 | the user id, present exactly when stored |
| Session.SessionManager.UserEmail | app/src/main/java/com/example/pethome/data/SessionManager.kt:54-56 | the email, present exactly when stored |
| Session.SessionManager.UserName | app/src/main/java/com/example/pethome/data/SessionManager.kt:59-61 | the name, present exactly when stored |
| Session.SessionManager.IsLoggedIn | app/src/main/java/com/example/pethome/data/SessionManager.kt:64-66 | true exactly when both the user id and the token are stored |
| Auth.UserOf | app/src/main/java/com/example/pethome/repository/AuthRepository.kt:39-43 | the returned user carries the response's id, email and name |
| Auth.SessionAfter | app/src/main/java/com/example/pethome/repository/AuthRepository.kt:31-38 | the store after a successful authentication: the session saved with the response's token |
| Auth.SessionAfterNamesUser | app/src/main/java/com/example/pethome/repository/AuthRepository.kt:31-45 | after a successful authentication the store holds the returned user's id, email and name and the response's token, and is signed in |
| Auth.AuthRepository.constructor | app/src/main/java/com/example/pethome/repository/AuthRepository.kt:15-17 | the repository uses the given session store |
| Auth.AuthRepository.Accept | app/src/main/java/com/example/pethome/repository/AuthRepository.kt:31-45 | saves the response's session (token included) and returns its user; the store ends signed in |
| Auth.AuthRepository.Login | app/src/main/java/com/example/pethome/repository/AuthRepository.kt:21-50 | one call with `LoginRequest(email, password)`; a reply saves the session and returns the user; any failure returns the fixed message and leaves the store untouched |
| Auth.AuthRepository.Register | app/src/main/java/com/example/pethome/repository/AuthRepository.kt:52-81 | one call with `RegisterRequest(name, email, password)`; a reply saves the session and returns the user; any failure returns the fixed message and leaves the store untouched |
| Auth.AuthRepository.Logout | app/src/main/java/com/example/pethome/repository/AuthRepository.kt:83-86 | the store is cleared and nobody is signed in |
| Auth.AuthRepository.ResetPassword | app/src/main/java/com/example/pethome/repository/AuthRepository.kt:88-92 | always a failure with "Funcionalidad no disponible aún" |
| PetRepository.RequestOfPetOfResponse | app/src/main/java/com/example/pethome/repository/PetRepository.kt:20-49 | reply to pet to request keeps every field from name to image; the pet has the reply's id and the given owner |
| PetRepository.ToPetIgnoresServerMetadata | app/src/main/java/com/example/pethome/repository/PetRepository.kt:20-33 | `toPet` ignores the reply's own owner and both timestamps |
| PetRepository.ToPetRequestIgnoresIdentity | app/src/main/java/com/example/pethome/repository/PetRepository.kt:38-49 | `toPetRequest` ignores the pet's id and owner |
| PetRepository.PetOfOwnRequest | app/src/main/java/com/example/pethome/repository/PetRepository.kt:20-49 | a reply built from a pet's own request, id and owner converts back to that pet |
| PetRepository.ToPet | app/src/main/java/com/example/pethome/repository/PetRepository.kt:20-33 | the server's pet: its id and fields, owned by the given user (see the lemmas above) |
| PetRepository.ToPetRequest | app/src/main/java/com/example/pethome/repository/PetRepository.kt:38-49 | the editable fields of a pet, without id and owner (see the lemmas above) |
| PetRepository.ToPets | app/src/main/java/com/example/pethome/repository/PetRepository.kt:59-60 | the mapped list has the reply's length, each pet the reply's id and fields at the same index, all owned by the given user |
| PetRepository.GetPetsByUser | app/src/main/java/com/example/pethome/repository/PetRepository.kt:54-71 | success exactly on a reply, with the mapped list in order; any failure is the fixed connection message |
| PetRepository.AddPet | app/src/main/java/com/example/pethome/repository/PetRepository.kt:76-93 | success exactly when the create call replies, with the server's id and fields and the caller's owner; otherwise the fixed create message |
| PetRepository.UpdatePet | app/src/main/java/com/example/pethome/repository/PetRepository.kt:98-115 | the call is made at the pet's own id; success exactly on a reply, with the caller's owner; otherwise the fixed update message |
| PetRepository.DeletePet | app/src/main/java/com/example/pethome/repository/PetRepository.kt:120-136 | success exactly when the delete call replies; otherwise the fixed delete message |
| PetRepository.GetPetById | app/src/main/java/com/example/pethome/repository/PetRepository.kt:141-154 | a pet exactly when the call replies, owned by the user the reply names; null on any failure |
| PetRepository.FailuresIgnoreCause | app/src/main/java/com/example/pethome/repository/PetRepository.kt:87-92 | a failed write gives the same result whatever the cause of the failure |
| Tables.Select | app/src/main/java/com/example/pethome/data/dao/AppointmentDao.kt:10-20 | a table scan returns each row satisfying the filter exactly once and nothing else |
| Tables.InsertAll | app/src/main/java/com/example/pethome/data/dao/VeterinaryServiceDao.kt:22-23 | a list of upserts, in list order, each replacing the row under its id |
| Tables.InsertAllKeyed | app/src/main/java/com/example/pethome/data/dao/VeterinaryServiceDao.kt:22-23 | repeated upserts keep every row under its own id |
| Tables.InsertAllOverlay | app/src/main/java/com/example/pethome/data/dao/VeterinaryServiceDao.kt:22-23 | upserting a list overlays the list's rows on the table |
| Tables.InsertAllIdempotent | app/src/main/java/com/example/pethome/data/dao/VeterinaryServiceDao.kt:22-23 | upserting the same list twice equals upserting it once |
| Tables.InsertAllDistinct | app/src/main/java/com/example/pethome/data/dao/VeterinaryServiceDao.kt:22-23 | upserting rows with distinct ids adds exactly their ids, stores each row under its id and keeps the rows not hit |
| AppointmentStore.LaterFirstIsTotalPreorder | app/src/main/java/com/example/pethome/data/dao/AppointmentDao.kt:10 | `ORDER BY date DESC` is a total preorder |
| AppointmentStore.SelectLatestFirst | app/src/main/java/com/example/pethome/data/dao/AppointmentDao.kt:10-20 | the matching rows, each once, ordered by date, latest first |
| AppointmentStore.AppointmentDao.constructor | app/src/main/java/com/example/pethome/data/dao/AppointmentDao.kt:8-9 | an empty, well-keyed table |
| AppointmentStore.AppointmentDao.GetAppointmentsByUser | app/src/main/java/com/example/pethome/data/dao/AppointmentDao.kt:10-11 | exactly the user's rows, latest date first |
| AppointmentStore.AppointmentDao.GetAppointmentsByPet | app/src/main/java/com/example/pethome/data/dao/AppointmentDao.kt:16-17 | exactly the pet's rows, latest date first |
| AppointmentStore.AppointmentDao.GetAppointmentsByService | app/src/main/java/com/example/pethome/data/dao/AppointmentDao.kt:19-20 | exactly the service's rows, latest date first |
| AppointmentStore.AppointmentDao.GetAppointmentById | app/src/main/java/com/example/pethome/data/dao/AppointmentDao.kt:13-14 | the row with that id, present exactly when stored |
| AppointmentStore.AppointmentDao.InsertAppointment | app/src/main/java/com/example/pethome/data/dao/AppointmentDao.kt:22-23 | upsert: the row under the id becomes the argument, nothing else changes |
| AppointmentStore.AppointmentDao.UpdateAppointment | app/src/main/java/com/example/pethome/data/dao/AppointmentDao.kt:25-26 | overwrites an existing row; no effect when there is none |
| AppointmentStore.AppointmentDao.DeleteAppointment | app/src/main/java/com/example/pethome/data/dao/AppointmentDao.kt:28-29 | removes exactly the row with the argument's id |
| AppointmentStore.AppointmentDao.DeleteAppointmentById | app/src/main/java/com/example/pethome/data/dao/AppointmentDao.kt:31-32 | removes exactly the row with that id |
| ServiceStore.CategoryFirstIsTotalPreorder | app/src/main/java/com/example/pethome/data/dao/VeterinaryServiceDao.kt:10 | `ORDER BY category ASC` on text is a total preorder |
| ServiceStore.VeterinaryServiceDao.constructor | app/src/main/java/com/example/pethome/data/dao/VeterinaryServiceDao.kt:8-9 | an empty, well-keyed table |
| ServiceStore.VeterinaryServiceDao.GetAllServices | app/src/main/java/com/example/pethome/data/dao/VeterinaryServiceDao.kt:10-11 | exactly the available rows, each once, in ascending category order |
| ServiceStore.VeterinaryServiceDao.GetServiceById | app/src/main/java/com/example/pethome/data/dao/VeterinaryServiceDao.kt:13-14 | the row with that id, available or not, present exactly when stored |
| ServiceStore.VeterinaryServiceDao.GetServicesByCategory | app/src/main/java/com/example/pethome/data/dao/VeterinaryServiceDao.kt:16-17 | exactly the available rows of that category, each once |
| ServiceStore.VeterinaryServiceDao.InsertService | app/src/main/java/com/example/pethome/data/dao/VeterinaryServiceDao.kt:19-20 | upsert of one row |
| ServiceStore.VeterinaryServiceDao.InsertServices | app/src/main/java/com/example/pethome/data/dao/VeterinaryServiceDao.kt:22-23 | upsert of a list, row after row |
| ServiceStore.VeterinaryServiceDao.UpdateService | app/src/main/java/com/example/pethome/data/dao/VeterinaryServiceDao.kt:25-26 | overwrites an existing row; no effect when there is none |
| ServiceStore.VeterinaryServiceDao.DeleteService | app/src/main/java/com/example/pethome/data/dao/VeterinaryServiceDao.kt:28-29 | removes exactly the row with the argument's id |
| Catalog.SampleIds | app/src/main/java/com/example/pethome/repository/ServiceRepository.kt:29-102 | the seed lists eight services with ids "1" to "8", in order |
| Catalog.SampleServicesOf | app/src/main/java/com/example/pethome/repository/ServiceRepository.kt:29-102 | the eight sample rows in the listed order, with the given texts |
| Catalog.EightDistinct | app/src/main/java/com/example/pethome/repository/ServiceRepository.kt:29-102 | the eight sample ids are pairwise different |
| Catalog.EightKeys | app/src/main/java/com/example/pethome/repository/ServiceRepository.kt:29-102 | the eight sample ids are exactly "1" to "8" |
| Catalog.EightRows | app/src/main/java/com/example/pethome/repository/ServiceRepository.kt:104-106 | upserting eight rows with ids "1" to "8" fills exactly those keys, each with its row |
| Catalog.SampleCatalogRows | app/src/main/java/com/example/pethome/repository/ServiceRepository.kt:28-107 | the seeded rows are exactly "1" to "8", each as listed |
| Catalog.SampleServicesWellFormed | app/src/main/java/com/example/pethome/repository/ServiceRepository.kt:29-102 | every seeded service has a known category, a positive duration and is available |
| Catalog.SeedOverlaysCatalog | app/src/main/java/com/example/pethome/repository/ServiceRepository.kt:104-106 | seeding replaces rows "1" to "8" and keeps every other row |
| Catalog.SeedIsIdempotent | app/src/main/java/com/example/pethome/repository/ServiceRepository.kt:28-107 | seeding twice gives the same table as seeding once |
| Catalog.CancelledIn | app/src/main/java/com/example/pethome/repository/ServiceRepository.kt:139-142 | cancelling keeps every row and key and rewrites only the status of that row |
| Catalog.CancelIsIdempotent | app/src/main/java/com/example/pethome/repository/ServiceRepository.kt:137-149 | cancelling twice equals cancelling once |
| Catalog.ServiceRepository.constructor | app/src/main/java/com/example/pethome/repository/ServiceRepository.kt:10-13 | the repository uses the given tables and seeds with the catalogue's texts |
| Catalog.ServiceRepository.GetAllServices | app/src/main/java/com/example/pethome/repository/ServiceRepository.kt:16-18 | the available services, each once, by category |
| Catalog.ServiceRepository.GetServiceById | app/src/main/java/com/example/pethome/repository/ServiceRepository.kt:20-22 | the service under the id, or null |
| Catalog.ServiceRepository.GetServicesByCategory | app/src/main/java/com/example/pethome/repository/ServiceRepository.kt:24-26 | the available services of the category, each once |
| Catalog.ServiceRepository.InitializeSampleServices | app/src/main/java/com/example/pethome/repository/ServiceRepository.kt:28-107 | the loop of upserts leaves the old table overlaid with the eight sample rows, every other row kept |
| Catalog.ServiceRepository.GetAppointmentsByUser | app/src/main/java/com/example/pethome/repository/ServiceRepository.kt:110-112 | the user's appointments, each once, latest first |
| Catalog.ServiceRepository.GetAppointmentsByPet | app/src/main/java/com/example/pethome/repository/ServiceRepository.kt:114-116 | the pet's appointments, each once, latest first |
| Catalog.ServiceRepository.CreateAppointment | app/src/main/java/com/example/pethome/repository/ServiceRepository.kt:118-126 | stores and returns the appointment under a fresh id, every other field, status included, as given |
| Catalog.ServiceRepository.UpdateAppointment | app/src/main/java/com/example/pethome/repository/ServiceRepository.kt:128-135 | overwrites the existing row (no effect otherwise) and returns the argument |
| Catalog.ServiceRepository.CancelAppointment | app/src/main/java/com/example/pethome/repository/ServiceRepository.kt:137-149 | an existing appointment gets status "Cancelada" and nothing else changes; a missing one fails with "Cita no encontrada" and nothing changes |
| Strings.IsBlank | app/src/main/java/com/example/pethome/viewmodel/PetViewModel.kt:225-238 | empty or only JVM whitespace characters |
| Strings.Utf16Length | app/src/main/java/com/example/pethome/viewmodel/RegisterViewModel.kt:110 | `length` counts UTF-16 units: between the number of characters and twice it, equal for text inside the Basic Multilingual Plane |
| Strings.Utf16LengthExamples | app/src/main/java/com/example/pethome/viewmodel/LoginViewModel.kt:99 | a character above U+FFFF counts two units |
| Strings.ParseInt | app/src/main/java/com/example/pethome/viewmodel/PetViewModel.kt:243-246 | `toInt` accepts only non-blank text and yields 32-bit values |
| Strings.ParseIntShape | app/src/main/java/com/example/pethome/viewmodel/PetViewModel.kt:243-246 | an accepted text is an optional sign, leading zeros and the digits of its value's magnitude; `-` only with values of at most 0, `+` or none only with values of at least 0 |
| Strings.ParseIntOfShape | app/src/main/java/com/example/pethome/viewmodel/PetViewModel.kt:243-246 | conversely every such text is accepted exactly when its value fits in 32 bits, and reads as that value |
| Strings.ParseIntExamples | app/src/main/java/com/example/pethome/viewmodel/PetViewModel.kt:243-246 | "+5" reads 5, "007" reads 7, "-0" reads 0; "", "-" and " 5" are rejected |
| Strings.ParseIntOfDigits | app/src/main/java/com/example/pethome/viewmodel/PetViewModel.kt:243-246 | a sign followed by digits reads as the signed value of the digits when it fits in 32 bits, and is rejected otherwise |
| Strings.ParseIntOfPadded | app/src/main/java/com/example/pethome/viewmodel/PetViewModel.kt:243-246 | the same for digits given as two parts |
| Strings.ParseIntAccepts | app/src/main/java/com/example/pethome/viewmodel/PetViewModel.kt:243-246 | every accepted text is a sign followed by digits, and reads as their signed value |
| Strings.PaddedValue | app/src/main/java/com/example/pethome/viewmodel/PetViewModel.kt:243-246 | leading zeros do not change the value of a digit string |
| Strings.DigitsShape | app/src/main/java/com/example/pethome/viewmodel/PetViewModel.kt:243-246 | a digit string is leading zeros followed by the canonical digits of its value |
| Strings.NatToString | app/src/main/java/com/example/pethome/viewmodel/PetViewModel.kt:112-124 | decimal text of a natural is non-empty digits |
| Strings.NatToStringValue | app/src/main/java/com/example/pethome/viewmodel/PetViewModel.kt:112-124 | the digits read back as the number |
| Strings.IntToString | app/src/main/java/com/example/pethome/viewmodel/PetViewModel.kt:119 | non-empty, and starts with `-` exactly for negative values |
| Strings.ParseIntToString | app/src/main/java/com/example/pethome/viewmodel/PetViewModel.kt:112-124 | `toInt(n.toString()) == n` for every 32-bit n |
| Strings.TextLeTotal | app/src/main/java/com/example/pethome/data/dao/VeterinaryServiceDao.kt:10 | the text order is total |
| Strings.TextLeTransitive | app/src/main/java/com/example/pethome/data/dao/VeterinaryServiceDao.kt:10 | the text order is transitive |
| Sorting.Insert | app/src/main/java/com/example/pethome/viewmodel/ScheduleViewModel.kt:60 | insertion adds exactly one element |
| Sorting.SortBy | app/src/main/java/com/example/pethome/viewmodel/ScheduleViewModel.kt:60 | the sort permutes its input |
| Sorting.InsertSorted | app/src/main/java/com/example/pethome/viewmodel/ScheduleViewModel.kt:60 | insertion keeps a sorted list sorted |
| Sorting.SortBySorted | app/src/main/java/com/example/pethome/viewmodel/ScheduleViewModel.kt:60 | the sort's result is ordered |
| Sorting.InsertEquivalents | app/src/main/java/com/example/pethome/viewmodel/ScheduleViewModel.kt:60 | insertion places an element before its equal-key peers that follow it |
| Sorting.SortByStable | app/src/main/java/com/example/pethome/viewmodel/ScheduleViewModel.kt:60 | the sort is stable |
| PetForm.RequiredError | app/src/main/java/com/example/pethome/viewmodel/PetViewModel.kt:225-238 | a required field's message appears exactly when its text is blank |
| PetForm.ValidatedForm | app/src/main/java/com/example/pethome/viewmodel/PetViewModel.kt:222-283 | the form after validation: each failing check writes its message, a passing one leaves its error (see ValidationOutcome and EveryCheckRuns) |
| PetForm.AgeError | app/src/main/java/com/example/pethome/viewmodel/PetViewModel.kt:240-254 | blank, not a 32-bit integer, outside 0..50, or valid, each with its message, exactly |
| PetForm.WeightError | app/src/main/java/com/example/pethome/viewmodel/PetViewModel.kt:256-270 | blank, not a number, outside (0, 200], or valid, each with its message, exactly |
| PetForm.ValidationOutcome | app/src/main/java/com/example/pethome/viewmodel/PetViewModel.kt:222-283 | validation touches only the seven field errors; a valid form is unchanged; an invalid one shows an error |
| PetForm.EveryCheckRuns | app/src/main/java/com/example/pethome/viewmodel/PetViewModel.kt:222-283 | every failing check writes its message regardless of the other fields |
| PetForm.AgeExamples | app/src/test/java/com/example/pethome/viewmodel/PetViewModelTest.kt:211-251 | "abc" is not a number, "60" is out of range, "5" is valid |
| PetForm.AgeAcceptsExactly | app/src/main/java/com/example/pethome/viewmodel/PetViewModel.kt:240-254 | the decimal text of a 32-bit n passes the age check exactly when 0 <= n <= 50 |
| PetForm.ValidFormGivesValidPet | app/src/main/java/com/example/pethome/viewmodel/PetViewModel.kt:146-157 | the pet built from a valid form parses, and meets every rule the form checks |
| PetForm.PetOf | app/src/main/java/com/example/pethome/viewmodel/PetViewModel.kt:146-157 | the pet a valid form saves: the form's texts, the parsed age and weight, the given id and owner (see ValidFormGivesValidPet) |
| PetForm.EditRoundTrip | app/src/main/java/com/example/pethome/viewmodel/PetViewModel.kt:112-157 | editing a pet and saving the untouched form rebuilds the same pet, when its weight's text reads back |
| PetForm.EditFormOfValidPetIsValid | app/src/main/java/com/example/pethome/viewmodel/PetViewModel.kt:112-124 | a pet meeting the rules passes validation when opened for editing |
| PetForm.EditForm | app/src/main/java/com/example/pethome/viewmodel/PetViewModel.kt:112-124 | the form opened for a pet, with `age.toString()` and `weight.toString()` (see EditRoundTrip) |
| PetForm.SaveOutcome | app/src/main/java/com/example/pethome/viewmodel/PetViewModel.kt:165-182 | success raises `isSuccess` and clears the message; failure keeps every field and field error, ends loading and shows the exception's message or "Error al guardar mascota" |
| PetForm.SaveFailureMessage | app/src/main/java/com/example/pethome/viewmodel/PetViewModel.kt:159-182 | through the pet repository a failed save shows its fixed create or update message |
| PetForm.Without | app/src/main/java/com/example/pethome/viewmodel/PetViewModel.kt:203 | exactly the pets with another id remain, and the list does not grow |
| PetForm.WithoutAppend | app/src/main/java/com/example/pethome/viewmodel/PetViewModel.kt:203 | filtering distributes over concatenation, so order is kept |
| PetForm.WithoutIdempotent | app/src/main/java/com/example/pethome/viewmodel/PetViewModel.kt:203 | filtering twice equals filtering once |
| PetForm.DeleteFailureMessage | app/src/main/java/com/example/pethome/viewmodel/PetViewModel.kt:207-216 | the message starts with "Error al eliminar mascota: " |
| PetForm.PetViewModel.constructor | app/src/main/java/com/example/pethome/viewmodel/PetViewModel.kt:40-47 | empty form, no pets, nothing being edited |
| PetForm.PetViewModel.LoadPets | app/src/main/java/com/example/pethome/viewmodel/PetViewModel.kt:56-70 | the repository's list mapped in order for this user, or empty on failure; the form is untouched |
| PetForm.PetViewModel.OnNameChange | app/src/main/java/com/example/pethome/viewmodel/PetViewModel.kt:76-78 | sets the name and clears its error only |
| PetForm.PetViewModel.OnSpeciesChange | app/src/main/java/com/example/pethome/viewmodel/PetViewModel.kt:80-82 | sets the species and clears its error only |
| PetForm.PetViewModel.OnBreedChange | app/src/main/java/com/example/pethome/viewmodel/PetViewModel.kt:84-86 | sets the breed and clears its error only |
| PetForm.PetViewModel.OnAgeChange | app/src/main/java/com/example/pethome/viewmodel/PetViewModel.kt:88-90 | sets the age and clears its error only |
| PetForm.PetViewModel.OnWeightChange | app/src/main/java/com/example/pethome/viewmodel/PetViewModel.kt:92-94 | sets the weight and clears its error only |
| PetForm.PetViewModel.OnGenderChange | app/src/main/java/com/example/pethome/viewmodel/PetViewModel.kt:96-98 | sets the gender and clears its error only |
| PetForm.PetViewModel.OnColorChange | app/src/main/java/com/example/pethome/viewmodel/PetViewModel.kt:100-102 | sets the color and clears its error only |
| PetForm.PetViewModel.OnImageSelected | app/src/main/java/com/example/pethome/viewmodel/PetViewModel.kt:104-106 | sets the image only |
| PetForm.PetViewModel.ClearError | app/src/main/java/com/example/pethome/viewmodel/PetViewModel.kt:108-110 | clears the screen message only |
| PetForm.PetViewModel.StartEditingPet | app/src/main/java/com/example/pethome/viewmodel/PetViewModel.kt:112-126 | remembers the pet and shows a fresh form holding its values |
| PetForm.PetViewModel.ClearForm | app/src/main/java/com/example/pethome/viewmodel/PetViewModel.kt:128-131 | nothing being edited and an empty form |
| PetForm.PetViewModel.ResetSuccessState | app/src/main/java/com/example/pethome/viewmodel/PetViewModel.kt:133-135 | clears `isSuccess` only |
| PetForm.PetViewModel.ValidateForm | app/src/main/java/com/example/pethome/viewmodel/PetViewModel.kt:222-283 | runs all seven checks, the form becomes `ValidatedForm`, and the result says that none failed |
| PetForm.PetViewModel.SavePet | app/src/main/java/com/example/pethome/viewmodel/PetViewModel.kt:137-195 | an invalid form only shows its errors and calls nothing; a valid one builds the pet (edited id or "", this user) and updates it when editing, adds it otherwise, then applies `SaveOutcome` |
| PetForm.PetViewModel.DeletePet | app/src/main/java/com/example/pethome/viewmodel/PetViewModel.kt:197-220 | on success exactly that id leaves the list; on failure the list stays and the message carries the repository's reason |
| Credentials.EmailError | app/src/main/java/com/example/pethome/viewmodel/LoginViewModel.kt:86-93 | "El correo es requerido" exactly when blank, "Correo inválido" exactly when not blank and not matching, none otherwise |
| Credentials.PasswordError | app/src/main/java/com/example/pethome/viewmodel/LoginViewModel.kt:95-102 | required exactly when blank, too short exactly when not blank and under six UTF-16 units (a character above U+FFFF counts two), none otherwise |
| Credentials.PasswordRuleExamples | app/src/test/java/com/example/pethome/viewmodel/LoginViewModelTest.kt:145-146 | six blanks count as missing, "12345" is too short, "123456" passes |
| SignIn.ValidFieldsMeaning | app/src/main/java/com/example/pethome/viewmodel/LoginViewModel.kt:83-105 | the fields are valid exactly for a non-blank matching address and a non-blank password of six or more characters |
| SignIn.ValidatedState | app/src/main/java/com/example/pethome/viewmodel/LoginViewModel.kt:83-105 | the state after validation: a failing check writes its message, a passing one leaves its error (see ValidationOutcome) |
| SignIn.ValidationOutcome | app/src/main/java/com/example/pethome/viewmodel/LoginViewModel.kt:83-105 | both checks always run; valid fields are unchanged; a blank address, an address the matcher rejects, a blank and a short password each show their message |
| SignIn.LoginOutcome | app/src/main/java/com/example/pethome/viewmodel/LoginViewModel.kt:59-73 | success marks the login done and clears the message; failure keeps every field and field error, ends loading and shows the exception's message or "Error al iniciar sesión" |
| SignIn.ToggleIsInvolution | app/src/main/java/com/example/pethome/viewmodel/LoginViewModel.kt:34-38 | the visibility switch undoes itself and changes only the visibility |
| SignIn.LoginViewModel.constructor | app/src/main/java/com/example/pethome/viewmodel/LoginViewModel.kt:112-121 | the default state |
| SignIn.LoginViewModel.OnEmailChange | app/src/main/java/com/example/pethome/viewmodel/LoginViewModel.kt:20-25 | sets the email and clears its error only |
| SignIn.LoginViewModel.OnPasswordChange | app/src/main/java/com/example/pethome/viewmodel/LoginViewModel.kt:27-32 | sets the password and clears its error only |
| SignIn.LoginViewModel.TogglePasswordVisibility | app/src/main/java/com/example/pethome/viewmodel/LoginViewModel.kt:34-38 | flips the visibility only |
| SignIn.LoginViewModel.ClearError | app/src/main/java/com/example/pethome/viewmodel/LoginViewModel.kt:40-42 | clears the message only |
| SignIn.LoginViewModel.ValidateFields | app/src/main/java/com/example/pethome/viewmodel/LoginViewModel.kt:83-105 | the state becomes `ValidatedState` and the result says that neither check failed |
| SignIn.LoginViewModel.Login | app/src/main/java/com/example/pethome/viewmodel/LoginViewModel.kt:44-81 | invalid fields only show their errors and call nothing; valid ones call `login(email, password)` once and apply `LoginOutcome` |
| SignUp.IndexOf | app/src/main/java/com/example/pethome/viewmodel/RegisterViewModel.kt:145-148 | the first position of the character, or none when absent |
| SignUp.LastIndexOf | app/src/main/java/com/example/pethome/viewmodel/RegisterViewModel.kt:145-148 | the last position of the character, or none when absent |
| SignUp.IndexOfIs | app/src/main/java/com/example/pethome/viewmodel/RegisterViewModel.kt:145-148 | a position holding the character with none before it is the first |
| SignUp.LastIndexOfIs | app/src/main/java/com/example/pethome/viewmodel/RegisterViewModel.kt:145-148 | a position holding the character with none after it is the last |
| SignUp.ValidEmailMatchesPattern | app/src/main/java/com/example/pethome/viewmodel/RegisterViewModel.kt:145-148 | every address the decision accepts matches the regular expression |
| SignUp.PatternIsValidEmail | app/src/main/java/com/example/pethome/viewmodel/RegisterViewModel.kt:145-148 | every split matching the regular expression is accepted |
| SignUp.IsValidEmailIsPattern | app/src/main/java/com/example/pethome/viewmodel/RegisterViewModel.kt:145-148 | the decision accepts exactly the full matches of `^[A-Za-z0-9+_.-]+@[A-Za-z0-9.-]+\.[A-Za-z]{2,}$` |
| SignUp.ValidEmailShape | app/src/main/java/com/example/pethome/viewmodel/RegisterViewModel.kt:145-148 | an accepted address has exactly one '@', not first, and a last '.' followed by two or more letters |
| SignUp.IsValidEmail | app/src/main/java/com/example/pethome/viewmodel/RegisterViewModel.kt:145-148 | the address split at its first `@` and last `.` (see IsValidEmailIsPattern) |
| SignUp.EmailPattern | app/src/main/java/com/example/pethome/viewmodel/RegisterViewModel.kt:146 | a full match of the regular expression, as some split of the address |
| SignUp.GoodEmailExample | app/src/test/java/com/example/pethome/viewmodel/RegisterViewModelTest.kt:61 | "test@example.com" is accepted |
| SignUp.BadEmailExample | app/src/test/java/com/example/pethome/viewmodel/RegisterViewModelTest.kt:180 | "invalid-email" is rejected |
| SignUp.NameError | app/src/main/java/com/example/pethome/viewmodel/RegisterViewModel.kt:107-113 | required exactly when blank, too short exactly when not blank and under two UTF-16 units (a character above U+FFFF counts two), none otherwise |
| SignUp.NameRuleExamples | app/src/main/java/com/example/pethome/viewmodel/RegisterViewModel.kt:107-113 | "A" is too short, "Al" passes, and one character above U+FFFF passes as two units |
| SignUp.ConfirmError | app/src/main/java/com/example/pethome/viewmodel/RegisterViewModel.kt:134-140 | required exactly when blank, "Las contraseñas no coinciden" exactly when not blank and different, none otherwise |
| SignUp.ValidFieldsMeaning | app/src/main/java/com/example/pethome/viewmodel/RegisterViewModel.kt:103-143 | the fields are valid exactly for a real name, an address matching the pattern, a long enough password and an identical confirmation |
| SignUp.ValidationOutcome | app/src/main/java/com/example/pethome/viewmodel/RegisterViewModel.kt:103-143 | valid fields are unchanged; invalid ones show at least one error |
| SignUp.ValidatedState | app/src/main/java/com/example/pethome/viewmodel/RegisterViewModel.kt:103-143 | the state after validation (see ValidationOutcome and EveryCheckRuns) |
| SignUp.EveryCheckRuns | app/src/main/java/com/example/pethome/viewmodel/RegisterViewModel.kt:103-143 | each failing rule writes its own message whatever the other fields hold, each passing rule keeps its error, and nothing but the four errors changes |
| SignUp.RegisterOutcome | app/src/main/java/com/example/pethome/viewmodel/RegisterViewModel.kt:78-92 | success marks the sign-up done and clears the message; failure keeps every field and field error, ends loading and shows the exception's message or "Error al registrar usuario" |
| SignUp.TogglesAreInvolutions | app/src/main/java/com/example/pethome/viewmodel/RegisterViewModel.kt:48-58 | each switch undoes itself, leaves the other alone, and the two commute |
| SignUp.RegisterViewModel.constructor | app/src/main/java/com/example/pethome/viewmodel/RegisterViewModel.kt:151-165 | the default state |
| SignUp.RegisterViewModel.OnNameChange | app/src/main/java/com/example/pethome/viewmodel/RegisterViewModel.kt:20-25 | sets the name and clears its error only |
| SignUp.RegisterViewModel.OnEmailChange | app/src/main/java/com/example/pethome/viewmodel/RegisterViewModel.kt:27-32 | sets the email and clears its error only |
| SignUp.RegisterViewModel.OnPasswordChange | app/src/main/java/com/example/pethome/viewmodel/RegisterViewModel.kt:34-39 | sets the password and clears its error only |
| SignUp.RegisterViewModel.OnConfirmPasswordChange | app/src/main/java/com/example/pethome/viewmodel/RegisterViewModel.kt:41-46 | sets the confirmation and clears its error only |
| SignUp.RegisterViewModel.TogglePasswordVisibility | app/src/main/java/com/example/pethome/viewmodel/RegisterViewModel.kt:48-52 | flips the password visibility only |
| SignUp.RegisterViewModel.ToggleConfirmPasswordVisibility | app/src/main/java/com/example/pethome/viewmodel/RegisterViewModel.kt:54-58 | flips the confirmation visibility only |
| SignUp.RegisterViewModel.ClearError | app/src/main/java/com/example/pethome/viewmodel/RegisterViewModel.kt:60-62 | clears the message only |
| SignUp.RegisterViewModel.ValidateFields | app/src/main/java/com/example/pethome/viewmodel/RegisterViewModel.kt:103-143 | all four checks run, the state becomes `ValidatedState`, and the result says that none failed |
| SignUp.RegisterViewModel.Register | app/src/main/java/com/example/pethome/viewmodel/RegisterViewModel.kt:64-101 | invalid fields only show their errors and call nothing; valid ones call `register(email, password, name)` once and apply `RegisterOutcome` |
| Booking.FormError | app/src/main/java/com/example/pethome/viewmodel/ServiceViewModel.kt:112-125 | the message of the first missing choice in the order pet, date (0 when unset), time, each exactly; none when all are chosen |
| Booking.NotesOf | app/src/main/java/com/example/pethome/viewmodel/ServiceViewModel.kt:139 | empty notes become null, others are kept |
| Booking.AppointmentOf | app/src/main/java/com/example/pethome/viewmodel/ServiceViewModel.kt:131-140 | the booking has id "", status "Pendiente", the given service, the form's pet, date and time, this user, and notes null exactly when empty |
| Booking.CreateOutcome | app/src/main/java/com/example/pethome/viewmodel/ServiceViewModel.kt:144-161 | success raises `isSuccess` and clears the message; failure keeps every choice, ends loading and shows the exception's message or "Error al crear la cita" |
| Booking.FirstMissingChoiceWins | app/src/main/java/com/example/pethome/viewmodel/ServiceViewModel.kt:112-125 | with no pet neither date nor time matters; with a pet but no date the time does not; notes and flags never matter |
| Booking.FillingTheForm | app/src/main/java/com/example/pethome/viewmodel/ServiceViewModel.kt:101-125 | a cleared form misses its pet; picking a pet, a date and a time completes any form |
| Booking.AppointmentOfIsInjective | app/src/main/java/com/example/pethome/viewmodel/ServiceViewModel.kt:131-140 | two forms book the same appointment exactly when they agree on pet, date, time and notes |
| Booking.ServiceViewModel.constructor | app/src/main/java/com/example/pethome/viewmodel/ServiceViewModel.kt:25-40 | the default form and no selected service |
| Booking.ServiceViewModel.SelectService | app/src/main/java/com/example/pethome/viewmodel/ServiceViewModel.kt:74-79 | the selected service is the catalogue's row for the id, or null |
| Booking.ServiceViewModel.ClearSelectedService | app/src/main/java/com/example/pethome/viewmodel/ServiceViewModel.kt:81-83 | no service selected |
| Booking.ServiceViewModel.OnPetSelected | app/src/main/java/com/example/pethome/viewmodel/ServiceViewModel.kt:85-87 | sets the pet only |
| Booking.ServiceViewModel.OnDateSelected | app/src/main/java/com/example/pethome/viewmodel/ServiceViewModel.kt:89-91 | sets the date only |
| Booking.ServiceViewModel.OnTimeSelected | app/src/main/java/com/example/pethome/viewmodel/ServiceViewModel.kt:93-95 | sets the time only |
| Booking.ServiceViewModel.OnNotesChange | app/src/main/java/com/example/pethome/viewmodel/ServiceViewModel.kt:97-99 | sets the notes only |
| Booking.ServiceViewModel.ClearAppointmentForm | app/src/main/java/com/example/pethome/viewmodel/ServiceViewModel.kt:101-103 | restores the default form |
| Booking.ServiceViewModel.ResetSuccessState | app/src/main/java/com/example/pethome/viewmodel/ServiceViewModel.kt:105-107 | clears `isSuccess` only |
| Booking.ServiceViewModel.ClearError | app/src/main/java/com/example/pethome/viewmodel/ServiceViewModel.kt:174-176 | clears the message only |
| Booking.ServiceViewModel.CreateAppointment | app/src/main/java/com/example/pethome/viewmodel/ServiceViewModel.kt:109-172 | an incomplete form gets only its first missing choice's message and calls nothing; a complete one books `AppointmentOf` once and applies `CreateOutcome` |
| Schedule.ItemOf | app/src/main/java/com/example/pethome/viewmodel/ScheduleViewModel.kt:43-55 | id, date, time and status come from the appointment; pet id and name from the pet; name, category and short description from the service |
| Schedule.ScheduleLeIsTotalPreorder | app/src/main/java/com/example/pethome/viewmodel/ScheduleViewModel.kt:60 | ordering by `dateTime` is a total preorder |
| Schedule.JoinedItemsMembers | app/src/main/java/com/example/pethome/viewmodel/ScheduleViewModel.kt:37-57 | an entry is collected exactly for an appointment whose service and pet are both found; orphans are skipped |
| Schedule.JoinedItemsLength | app/src/main/java/com/example/pethome/viewmodel/ScheduleViewModel.kt:37-57 | at most one entry per appointment, exactly one each when every lookup succeeds |
| Schedule.JoinedItems | app/src/main/java/com/example/pethome/viewmodel/ScheduleViewModel.kt:37-57 | the entries of the appointments whose service and pet are both found, in order (see JoinedItemsMembers) |
| Schedule.UpcomingItems | app/src/main/java/com/example/pethome/viewmodel/ScheduleViewModel.kt:33-62 | the joined entries sorted by date with the stable sort (see UpcomingItemsProperties) |
| Schedule.UpcomingItemsProperties | app/src/main/java/com/example/pethome/viewmodel/ScheduleViewModel.kt:33-62 | the published list is sorted ascending by date, a permutation of the collected entries, no longer than the emission, and stable |
| Schedule.UpcomingItemsMembers | app/src/main/java/com/example/pethome/viewmodel/ScheduleViewModel.kt:33-62 | the published entries are exactly those of resolvable appointments |
| Schedule.CollectScheduleItems | app/src/main/java/com/example/pethome/viewmodel/ScheduleViewModel.kt:34-57 | the loop collects `JoinedItems` of the emission |
| Schedule.ScheduleViewModel.constructor | app/src/main/java/com/example/pethome/viewmodel/ScheduleViewModel.kt:19-23 | no entries and not loading |
| Schedule.ScheduleViewModel.StartLoading | app/src/main/java/com/example/pethome/viewmodel/ScheduleViewModel.kt:31 | the loading flag goes up, entries unchanged |
| Schedule.ScheduleViewModel.OnAppointments | app/src/main/java/com/example/pethome/viewmodel/ScheduleViewModel.kt:33-63 | publishes `UpcomingItems` of the emission and ends loading |
| Schedule.ScheduleViewModel.OnFailure | app/src/main/java/com/example/pethome/viewmodel/ScheduleViewModel.kt:65-68 | loading ends with an empty list |

## Left out

- Coroutines, `Flow` collection, `viewModelScope` and job cancellation are not modelled.
  - Each view-model step is one atomic method.
  - The `loadPets()` that follows a successful save or delete is the separate later step `PetViewModel.LoadPets`.
  - The initial `loadServices`/`loadAppointments` collection of `ServiceViewModel` is not modelled. Its lists are the repository's query results (`ServiceRepository.GetAllServices`, `GetAppointmentsByUser`).
- The intermediate `isLoading = true` of each submit is overwritten before the method returns. It does not appear in the final-state contracts.
- Remote I/O is not modelled. Retrofit, Gson and `RetrofitClient` are not part of this model. Each API call is a function parameter whose `Fault` stands for any exception. Gson leaving a non-null field null is not modelled.
- The `catch` branches that would show "Error inesperado: …" are not modelled. The repositories they call catch every exception themselves and return a `Result`.
- Storage failures of the Room tables and of the DataStore are not modelled. The repositories' `Result.failure(e)` branches for them (`createAppointment`, `updateAppointment`, `cancelAppointment`) are left out for the same reason.
- `UUID.randomUUID()` and `System.currentTimeMillis()` are parameters (`freshId`, `now`).
- The view-models' repositories are function parameters, not the repository classes. `PetViewModel` calls the `PetRepository` functions over the remote API.
- Strings are sequences of Unicode code points. Kotlin's `length` counts UTF-16 units, which `Utf16Length` models for the password and name rules. Other string operations (`isBlank`, the e-mail pattern, equality) do not depend on the encoding.
- `String.toInt()` accepts only ASCII digits here. The JVM also accepts other Unicode decimal digits.
- PetForm.WeightError: `String.toDouble()` and `Double.toString()` are uninterpreted functions to and from `real`. So the model does not capture NaN or infinity. In particular, the text "NaN" parses to NaN, which passes the check `weight <= 0 || weight > 200` in the code.
- SignIn.ValidFieldsMeaning: Android's `Patterns.EMAIL_ADDRESS` is a parameter of the sign-in view-model, so what it accepts is not stated.
- The `ORDER BY` queries order equal keys arbitrarily. Their contracts state the rows as a multiset and the order, not a tie order.
- `ScheduleViewModel.formatDate` (locale date formatting), logging, the factories, the UI screens, navigation, `AppDatabase` and `PetDao` are not part of this model.
- `ScheduleViewModel`'s `sortBy` sorts a `MutableList` in place. The model sorts the collected sequence as a value with the stable `SortBy`, so the in-place update is not captured.

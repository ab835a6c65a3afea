/** The booking screen's state holder (`ServiceViewModel`): the selected
    service and the appointment form. Submitting checks the pet, the date and
    the time in that order, stops at the first that is missing, and only for a
    complete form builds a pending appointment and hands it to the service
    repository, passed in as a function. */
module Booking {
  import opened Wrappers
  import opened Domain

  const PetRequired := "Debes seleccionar una mascota"
  const DateRequired := "Debes seleccionar una fecha"
  const TimeRequired := "Debes seleccionar una hora"
  const CreateFailedDefault := "Error al crear la cita"
  /** The status every booking made here starts with. */
  const Pending := "Pendiente"

  /** `AppointmentFormState`; a `selectedDate` of 0 means no date was picked. */
  datatype AppointmentFormState = AppointmentFormState(
    selectedPetId: string,
    selectedDate: int,
    selectedTime: string,
    notes: string,
    isLoading: bool,
    isSuccess: bool,
    errorMessage: Option<string>)

  /** `AppointmentFormState()` with every default. */
  const EmptyForm := AppointmentFormState("", 0, "", "", false, false, None)

  /** The message of the first missing choice, in the order pet, date, time. */
  function FormError(s: AppointmentFormState): (e: Option<string>)
    ensures e == Some(PetRequired) <==> s.selectedPetId == ""
    ensures e == Some(DateRequired) <==> s.selectedPetId != "" && s.selectedDate == 0
    ensures e == Some(TimeRequired) <==> s.selectedPetId != "" && s.selectedDate != 0 && s.selectedTime == ""
    ensures e.None? <==> s.selectedPetId != "" && s.selectedDate != 0 && s.selectedTime != ""
  {
    if s.selectedPetId == "" then Some(PetRequired)
    else if s.selectedDate == 0 then Some(DateRequired)
    else if s.selectedTime == "" then Some(TimeRequired)
    else None
  }

  /** `notes.ifEmpty { null }`. */
  function NotesOf(notes: string): (r: Option<string>)
    ensures r.None? <==> notes == ""
    ensures r.GetOr("") == notes
  {
    if notes == "" then None else Some(notes)
  }

  /** The appointment a complete form books: no id yet, the pending status, the
      view-model's user, and the clock reading `now` as its creation time. */
  function AppointmentOf(s: AppointmentFormState, serviceId: string, userId: string, now: int): (a: Appointment)
    ensures a.id == "" && a.status == Pending && a.createdAt == now
    ensures a.serviceId == serviceId && a.userId == userId
    ensures a.petId == s.selectedPetId && a.date == s.selectedDate && a.time == s.selectedTime
    ensures a.notes.None? <==> s.notes == ""
    ensures a.notes.GetOr("") == s.notes
  {
    Appointment(id := "", serviceId := serviceId, petId := s.selectedPetId, userId := userId,
                date := s.selectedDate, time := s.selectedTime, status := Pending,
                notes := NotesOf(s.notes), createdAt := now)
  }

  /** The state after the repository's answer to a complete form. */
  function CreateOutcome(s: AppointmentFormState, result: Result<Appointment>): (t: AppointmentFormState)
    ensures !t.isLoading
    ensures result.Success? ==> t == s.(isLoading := false, isSuccess := true, errorMessage := None)
    ensures result.Failure? ==>
              t == s.(isLoading := false, errorMessage := Some(result.message.GetOr(CreateFailedDefault)))
    ensures result == Failure(None) ==> t.errorMessage == Some(CreateFailedDefault)
    ensures result.Failure? && result.message.Some? ==> t.errorMessage == result.message
  {
    match result
    case Success(_) => s.(isLoading := false, isSuccess := true, errorMessage := None)
    case Failure(message) => s.(isLoading := false, errorMessage := Some(message.GetOr(CreateFailedDefault)))
  }

  /** Only the first missing choice is reported: without a pet, neither the
      date nor the time matters; with a pet but no date, the time does not. */
  lemma FirstMissingChoiceWins(s: AppointmentFormState, date: int, time: string)
    ensures s.selectedPetId == "" ==> FormError(s.(selectedDate := date, selectedTime := time)) == Some(PetRequired)
    ensures s.selectedPetId != "" && s.selectedDate == 0 ==>
              FormError(s.(selectedTime := time)) == Some(DateRequired)
    ensures FormError(s) == FormError(s.(notes := time, isLoading := !s.isLoading, errorMessage := None))
  {
  }

  /** A cleared form is reported as missing its pet; picking a pet, a date
      other than 0 and a time completes any form. */
  lemma FillingTheForm(s: AppointmentFormState, petId: string, date: int, time: string)
    requires petId != "" && date != 0 && time != ""
    ensures FormError(EmptyForm) == Some(PetRequired)
    ensures FormError(s.(selectedPetId := petId, selectedDate := date, selectedTime := time)).None?
  {
  }

  /** Two complete forms book the same appointment exactly when they agree on
      pet, date, time and notes. */
  lemma AppointmentOfIsInjective(s: AppointmentFormState, t: AppointmentFormState,
                                 serviceId: string, userId: string, now: int)
    ensures AppointmentOf(s, serviceId, userId, now) == AppointmentOf(t, serviceId, userId, now) <==>
              s.selectedPetId == t.selectedPetId && s.selectedDate == t.selectedDate
              && s.selectedTime == t.selectedTime && s.notes == t.notes
  {
    if AppointmentOf(s, serviceId, userId, now) == AppointmentOf(t, serviceId, userId, now) {
      assert NotesOf(s.notes).GetOr("") == NotesOf(t.notes).GetOr("");
    }
  }

  class ServiceViewModel {
    var form: AppointmentFormState
    var selectedService: Option<VeterinaryService>
    const userId: string

    constructor (userId: string)
      ensures form == EmptyForm && selectedService == None && this.userId == userId
    {
      form := EmptyForm;
      selectedService := None;
      this.userId := userId;
    }

    /** `selectService`: whatever the catalogue holds under the id, or nothing. */
    method SelectService(serviceId: string, getServiceById: string -> Option<VeterinaryService>)
      modifies this
      ensures selectedService == getServiceById(serviceId) && form == old(form)
    {
      selectedService := getServiceById(serviceId);
    }

    method ClearSelectedService()
      modifies this
      ensures selectedService == None && form == old(form)
    {
      selectedService := None;
    }

    method OnPetSelected(petId: string)
      modifies this
      ensures form == old(form).(selectedPetId := petId) && selectedService == old(selectedService)
    {
      form := form.(selectedPetId := petId);
    }

    method OnDateSelected(date: int)
      modifies this
      ensures form == old(form).(selectedDate := date) && selectedService == old(selectedService)
    {
      form := form.(selectedDate := date);
    }

    method OnTimeSelected(time: string)
      modifies this
      ensures form == old(form).(selectedTime := time) && selectedService == old(selectedService)
    {
      form := form.(selectedTime := time);
    }

    method OnNotesChange(notes: string)
      modifies this
      ensures form == old(form).(notes := notes) && selectedService == old(selectedService)
    {
      form := form.(notes := notes);
    }

    method ClearAppointmentForm()
      modifies this
      ensures form == EmptyForm && selectedService == old(selectedService)
    {
      form := EmptyForm;
    }

    method ResetSuccessState()
      modifies this
      ensures form == old(form).(isSuccess := false) && selectedService == old(selectedService)
    {
      form := form.(isSuccess := false);
    }

    method ClearError()
      modifies this
      ensures form == old(form).(errorMessage := None) && selectedService == old(selectedService)
    {
      form := form.(errorMessage := None);
    }

    /** `createAppointment`: an incomplete form gets the message of its first
        missing choice and nothing is called; a complete one is booked once,
        as `AppointmentOf` builds it, and the answer decides the outcome.
        `now` is the clock reading the new record takes. */
    method CreateAppointment(serviceId: string, now: int, create: Appointment -> Result<Appointment>)
      returns (call: Option<Appointment>)
      modifies this
      ensures selectedService == old(selectedService)
      ensures FormError(old(form)).Some? ==>
                call == None && form == old(form).(errorMessage := FormError(old(form)))
      ensures FormError(old(form)).None? ==>
                var a := AppointmentOf(old(form), serviceId, userId, now);
                call == Some(a) && form == CreateOutcome(old(form), create(a))
    {
      var state := form;
      if state.selectedPetId == "" {
        form := form.(errorMessage := Some(PetRequired));
        return None;
      }
      if state.selectedDate == 0 {
        form := form.(errorMessage := Some(DateRequired));
        return None;
      }
      if state.selectedTime == "" {
        form := form.(errorMessage := Some(TimeRequired));
        return None;
      }
      form := form.(isLoading := true);
      var appointment := Appointment(id := "", serviceId := serviceId, petId := state.selectedPetId,
                                     userId := userId, date := state.selectedDate, time := state.selectedTime,
                                     status := Pending, notes := NotesOf(state.notes), createdAt := now);
      call := Some(appointment);
      match create(appointment) {
        case Success(_) =>
          form := form.(isLoading := false, isSuccess := true, errorMessage := None);
        case Failure(message) =>
          form := form.(isLoading := false, errorMessage := Some(message.GetOr(CreateFailedDefault)));
      }
    }
  }
}

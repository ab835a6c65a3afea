/** The service and appointment repository (`ServiceRepository`): the sample
    catalogue seed, appointment creation, update and cancellation, and the
    queries it hands through to the two tables. */
module Catalog {
  import opened Wrappers
  import opened Domain
  import opened Strings
  import opened Tables
  import opened ServiceStore
  import opened AppointmentStore

  const Pending := "Pendiente"
  const Cancelled := "Cancelada"
  const AppointmentNotFound := "Cita no encontrada"

  const Categories: set<string> :=
    {"Consulta", "Prevención", "Estética", "Cirugía", "Especializada", "Diagnóstico", "Urgencia"}

  // The texts of the sample catalogue.
  const Summary1 := "Revisión médica completa de tu mascota"
  const Description1 :=
    "Consulta veterinaria general que incluye examen físico completo, revisión de signos vitales, evaluación de comportamiento y recomendaciones de salud. Ideal para chequeos rutinarios y seguimiento del bienestar de tu mascota."
  const Summary2 := "Aplicación de vacunas esenciales"
  const Description2 :=
    "Servicio de vacunación completo que incluye la aplicación de vacunas esenciales según el calendario de inmunización. Protege a tu mascota contra enfermedades virales y bacterianas comunes. Incluye certificado de vacunación."
  const Summary3 := "Tratamiento contra parásitos internos y externos"
  const Description3 :=
    "Tratamiento completo para eliminar parásitos internos (lombrices) y externos (pulgas, garrapatas). Incluye evaluación del estado de salud, aplicación del tratamiento y recomendaciones de prevención."
  const Summary4 := "Servicio completo de estética canina"
  const Description4 :=
    "Servicio de estética que incluye baño con shampoo especializado, secado, corte de pelo según raza, limpieza de oídos, corte de uñas y perfumado. Tu mascota quedará limpia, bonita y con olor agradable."
  const Summary5 := "Procedimiento quirúrgico para esterilizar"
  const Description5 :=
    "Cirugía de esterilización (castración o ovariohisterectomía) realizada por veterinario especializado. Incluye pre-operatorio, anestesia general, cirugía, recuperación post-operatoria y medicamentos. Contribuye al control poblacional y previene enfermedades."
  const Summary6 := "Atención con médico especialista"
  const Description6 :=
    "Consulta con médico veterinario especializado en áreas específicas como dermatología, cardiología, oftalmología u ortopedia. Incluye evaluación detallada, diagnóstico especializado y plan de tratamiento personalizado."
  const Summary7 := "Análisis clínicos y diagnósticos"
  const Description7 :=
    "Servicio de laboratorio que incluye análisis de sangre, orina, heces y otros estudios diagnósticos. Permite detectar enfermedades de forma temprana y monitorear la salud de tu mascota. Resultados en 24-48 horas."
  const Summary8 := "Atención de emergencia las 24 horas"
  const Description8 :=
    "Servicio de urgencias veterinarias disponible las 24 horas del día, los 7 días de la semana. Atención inmediata para casos de emergencia como accidentes, intoxicaciones, dificultad respiratoria o síntomas graves. Equipo médico siempre disponible."

  /** The short and the long description of one sample service. */
  datatype SampleText = SampleText(shortDescription: string, description: string)

  /** The texts of the eight sample rows. */
  type EightTexts = t: seq<SampleText> | |t| == 8
    witness [SampleText("", ""), SampleText("", ""), SampleText("", ""), SampleText("", ""),
             SampleText("", ""), SampleText("", ""), SampleText("", ""), SampleText("", "")]

  /** The texts `initializeSampleServices` writes, in its order. */
  const CatalogTexts: EightTexts :=
    [SampleText(Summary1, Description1), SampleText(Summary2, Description2),
     SampleText(Summary3, Description3), SampleText(Summary4, Description4),
     SampleText(Summary5, Description5), SampleText(Summary6, Description6),
     SampleText(Summary7, Description7), SampleText(Summary8, Description8)]

  /** The eight rows that `initializeSampleServices` writes, in its order,
      with the texts `t`. */
  function SampleServicesOf(t: EightTexts): seq<VeterinaryService>
  {
    [
      VeterinaryService(
        id := "1", name := "Consulta General",
        description := t[0].description, shortDescription := t[0].shortDescription,
        price := 25000.0, duration := 30, category := "Consulta",
        imageUrl := None, isAvailable := true),
      VeterinaryService(
        id := "2", name := "Vacunación",
        description := t[1].description, shortDescription := t[1].shortDescription,
        price := 15000.0, duration := 20, category := "Prevención",
        imageUrl := None, isAvailable := true),
      VeterinaryService(
        id := "3", name := "Desparasitación",
        description := t[2].description, shortDescription := t[2].shortDescription,
        price := 12000.0, duration := 15, category := "Prevención",
        imageUrl := None, isAvailable := true),
      VeterinaryService(
        id := "4", name := "Baño y Peluquería",
        description := t[3].description, shortDescription := t[3].shortDescription,
        price := 20000.0, duration := 60, category := "Estética",
        imageUrl := None, isAvailable := true),
      VeterinaryService(
        id := "5", name := "Cirugía de Esterilización",
        description := t[4].description, shortDescription := t[4].shortDescription,
        price := 80000.0, duration := 120, category := "Cirugía",
        imageUrl := None, isAvailable := true),
      VeterinaryService(
        id := "6", name := "Consulta Especializada",
        description := t[5].description, shortDescription := t[5].shortDescription,
        price := 45000.0, duration := 45, category := "Especializada",
        imageUrl := None, isAvailable := true),
      VeterinaryService(
        id := "7", name := "Exámenes de Laboratorio",
        description := t[6].description, shortDescription := t[6].shortDescription,
        price := 35000.0, duration := 30, category := "Diagnóstico",
        imageUrl := None, isAvailable := true),
      VeterinaryService(
        id := "8", name := "Urgencias 24/7",
        description := t[7].description, shortDescription := t[7].shortDescription,
        price := 50000.0, duration := 60, category := "Urgencia",
        imageUrl := None, isAvailable := true)
    ]
  }

  /** The catalogue the seed produces in an empty table. */
  function SampleCatalogOf(t: EightTexts): map<string, VeterinaryService>
  {
    InsertAll(map[], SampleServicesOf(t), ServiceId)
  }

  /** The ids of the sample rows, in order. */
  lemma SampleIds(t: EightTexts)
    ensures |SampleServicesOf(t)| == 8
    ensures SampleServicesOf(t)[0].id == "1" && SampleServicesOf(t)[1].id == "2"
    ensures SampleServicesOf(t)[2].id == "3" && SampleServicesOf(t)[3].id == "4"
    ensures SampleServicesOf(t)[4].id == "5" && SampleServicesOf(t)[5].id == "6"
    ensures SampleServicesOf(t)[6].id == "7" && SampleServicesOf(t)[7].id == "8"
  {
  }

  /** The ids "1" to "8" at the eight positions are pairwise different. */
  lemma EightDistinct(s: seq<VeterinaryService>)
    requires |s| == 8
    requires s[0].id == "1" && s[1].id == "2" && s[2].id == "3" && s[3].id == "4"
    requires s[4].id == "5" && s[5].id == "6" && s[6].id == "7" && s[7].id == "8"
    ensures forall i, j :: 0 <= i < j < |s| ==> ServiceId(s[i]) != ServiceId(s[j])
  {
    forall i, j | 0 <= i < j < |s| ensures ServiceId(s[i]) != ServiceId(s[j]) {
      assert ServiceId(s[i])[0] != ServiceId(s[j])[0] by {
        assert forall k :: 0 <= k < 8 ==> |ServiceId(s[k])| == 1 && ServiceId(s[k])[0] as int == '1' as int + k;
      }
    }
  }

  /** The ids at the eight positions are exactly "1" to "8". */
  lemma EightKeys(s: seq<VeterinaryService>)
    requires |s| == 8
    requires s[0].id == "1" && s[1].id == "2" && s[2].id == "3" && s[3].id == "4"
    requires s[4].id == "5" && s[5].id == "6" && s[6].id == "7" && s[7].id == "8"
    ensures (set i | 0 <= i < |s| :: ServiceId(s[i])) == {"1", "2", "3", "4", "5", "6", "7", "8"}
  {
    var want := {"1", "2", "3", "4", "5", "6", "7", "8"};
    var ids := set i | 0 <= i < |s| :: ServiceId(s[i]);
    forall i | 0 <= i < |s| ensures ServiceId(s[i]) in want {
      assert i == 0 || i == 1 || i == 2 || i == 3 || i == 4 || i == 5 || i == 6 || i == 7;
    }
    assert ServiceId(s[0]) in ids && ServiceId(s[1]) in ids && ServiceId(s[2]) in ids && ServiceId(s[3]) in ids;
    assert ServiceId(s[4]) in ids && ServiceId(s[5]) in ids && ServiceId(s[6]) in ids && ServiceId(s[7]) in ids;
  }

  /** Any eight rows with the ids "1" to "8", in that order, fill exactly those keys. */
  lemma EightRows(s: seq<VeterinaryService>)
    requires |s| == 8
    requires s[0].id == "1" && s[1].id == "2" && s[2].id == "3" && s[3].id == "4"
    requires s[4].id == "5" && s[5].id == "6" && s[6].id == "7" && s[7].id == "8"
    ensures InsertAll(map[], s, ServiceId).Keys == {"1", "2", "3", "4", "5", "6", "7", "8"}
    ensures forall i :: 0 <= i < |s| ==> InsertAll(map[], s, ServiceId)[s[i].id] == s[i]
  {
    EightDistinct(s);
    EightKeys(s);
    InsertAllDistinct(map[], s, ServiceId);
  }

  /** The seed holds the rows "1" to "8", each under its own id and each as listed. */
  lemma SampleCatalogRows(t: EightTexts)
    ensures SampleCatalogOf(t).Keys == {"1", "2", "3", "4", "5", "6", "7", "8"}
    ensures forall i :: 0 <= i < |SampleServicesOf(t)| ==> SampleCatalogOf(t)[SampleServicesOf(t)[i].id] == SampleServicesOf(t)[i]
  {
    SampleIds(t);
    EightRows(SampleServicesOf(t));
  }

  /** Every seeded service belongs to a known category, takes some time and is offered. */
  lemma SampleServicesWellFormed(t: EightTexts)
    ensures |SampleServicesOf(t)| == 8
    ensures forall s :: s in SampleServicesOf(t) ==> s.category in Categories && s.duration > 0 && s.isAvailable
  {
  }

  /** Seeding overlays the catalogue on the table: rows "1".."8" replaced, every other row kept. */
  lemma SeedOverlaysCatalog(rows: map<string, VeterinaryService>, t: EightTexts)
    ensures InsertAll(rows, SampleServicesOf(t), ServiceId) == rows + SampleCatalogOf(t)
    ensures forall k :: k in rows && k !in SampleCatalogOf(t) ==> InsertAll(rows, SampleServicesOf(t), ServiceId)[k] == rows[k]
  {
    InsertAllOverlay(rows, SampleServicesOf(t), ServiceId);
  }

  /** Running the seed twice leaves the same table as running it once. */
  lemma SeedIsIdempotent(rows: map<string, VeterinaryService>, t: EightTexts)
    ensures InsertAll(InsertAll(rows, SampleServicesOf(t), ServiceId), SampleServicesOf(t), ServiceId)
         == InsertAll(rows, SampleServicesOf(t), ServiceId)
  {
    InsertAllIdempotent(rows, SampleServicesOf(t), ServiceId);
  }

  /** The appointments table after `cancelAppointment(appointmentId)` found its row. */
  function CancelledIn(rows: map<string, Appointment>, appointmentId: string): (t: map<string, Appointment>)
    requires appointmentId in rows
    ensures t.Keys == rows.Keys
    ensures t[appointmentId] == rows[appointmentId].(status := Cancelled)
    ensures forall k :: k in rows && k != appointmentId ==> t[k] == rows[k]
  {
    rows[appointmentId := rows[appointmentId].(status := Cancelled)]
  }

  /** Cancelling an already cancelled appointment leaves the table as it is. */
  lemma CancelIsIdempotent(rows: map<string, Appointment>, appointmentId: string)
    requires appointmentId in rows
    ensures CancelledIn(CancelledIn(rows, appointmentId), appointmentId) == CancelledIn(rows, appointmentId)
  {
  }

  class ServiceRepository {
    const serviceDao: VeterinaryServiceDao
    const appointmentDao: AppointmentDao
    /** The texts of the rows `initializeSampleServices` writes. */
    const sampleTexts: EightTexts

    ghost predicate Valid()
      reads serviceDao, appointmentDao
    {
      serviceDao.Valid() && appointmentDao.Valid()
    }

    constructor (serviceDao: VeterinaryServiceDao, appointmentDao: AppointmentDao)
      ensures this.serviceDao == serviceDao && this.appointmentDao == appointmentDao
      ensures sampleTexts == CatalogTexts
    {
      this.serviceDao := serviceDao;
      this.appointmentDao := appointmentDao;
      sampleTexts := CatalogTexts;
    }

    /** `getAllServices`: the available services, by category. */
    method GetAllServices() returns (r: seq<VeterinaryService>)
      requires Valid()
      ensures forall s :: multiset(r)[s] == if s in serviceDao.rows.Values && s.isAvailable then 1 else 0
      ensures forall i, j :: 0 <= i < j < |r| ==> TextLe(r[i].category, r[j].category)
    {
      r := serviceDao.GetAllServices();
    }

    /** `getServiceById`: the row with that id, available or not, or null. */
    function GetServiceById(serviceId: string): (r: Option<VeterinaryService>)
      reads serviceDao, appointmentDao
      requires Valid()
      ensures r.Some? <==> serviceId in serviceDao.rows
      ensures r.Some? ==> r.value == serviceDao.rows[serviceId]
    {
      serviceDao.GetServiceById(serviceId)
    }

    /** `getServicesByCategory`: the available services of one category. */
    method GetServicesByCategory(category: string) returns (r: seq<VeterinaryService>)
      requires Valid()
      ensures forall s :: multiset(r)[s] == if s in serviceDao.rows.Values && s.category == category && s.isAvailable then 1 else 0
    {
      r := serviceDao.GetServicesByCategory(category);
    }

    /** `initializeSampleServices`: upserts the eight sample rows one by one. */
    method InitializeSampleServices()
      requires Valid()
      modifies serviceDao
      ensures Valid()
      ensures serviceDao.rows == old(serviceDao.rows) + SampleCatalogOf(sampleTexts)
      ensures forall k :: k in old(serviceDao.rows) && k !in SampleCatalogOf(sampleTexts) ==>
                serviceDao.rows[k] == old(serviceDao.rows)[k]
    {
      var samples := SampleServicesOf(sampleTexts);
      for i := 0 to |samples|
        invariant Valid()
        invariant InsertAll(old(serviceDao.rows), samples, ServiceId) == InsertAll(serviceDao.rows, samples[i..], ServiceId)
      {
        assert samples[i..] == [samples[i]] + samples[i + 1..];
        serviceDao.InsertService(samples[i]);
      }
      SeedOverlaysCatalog(old(serviceDao.rows), sampleTexts);
    }

    /** `getAppointmentsByUser`: the user's appointments, latest date first. */
    method GetAppointmentsByUser(userId: string) returns (r: seq<Appointment>)
      requires Valid()
      ensures forall a :: multiset(r)[a] == if a in appointmentDao.rows.Values && a.userId == userId then 1 else 0
      ensures forall i, j :: 0 <= i < j < |r| ==> r[i].date >= r[j].date
    {
      r := appointmentDao.GetAppointmentsByUser(userId);
    }

    /** `getAppointmentsByPet`: the pet's appointments, latest date first. */
    method GetAppointmentsByPet(petId: string) returns (r: seq<Appointment>)
      requires Valid()
      ensures forall a :: multiset(r)[a] == if a in appointmentDao.rows.Values && a.petId == petId then 1 else 0
      ensures forall i, j :: 0 <= i < j < |r| ==> r[i].date >= r[j].date
    {
      r := appointmentDao.GetAppointmentsByPet(petId);
    }

    /** `createAppointment`: stores a copy under a new id (`freshId` stands for the
        random UUID) and returns it; every other field, the status included, is the caller's. */
    method CreateAppointment(appointment: Appointment, freshId: string) returns (r: Result<Appointment>)
      requires Valid()
      modifies appointmentDao
      ensures Valid()
      ensures r == Success(appointment.(id := freshId))
      ensures appointmentDao.rows == old(appointmentDao.rows)[freshId := appointment.(id := freshId)]
    {
      var created := appointment.(id := freshId);
      appointmentDao.InsertAppointment(created);
      r := Success(created);
    }

    /** `updateAppointment`: replaces the row with the argument's id, if there is one, and returns the argument. */
    method UpdateAppointment(appointment: Appointment) returns (r: Result<Appointment>)
      requires Valid()
      modifies appointmentDao
      ensures Valid()
      ensures r == Success(appointment)
      ensures appointment.id in old(appointmentDao.rows) ==> appointmentDao.rows == old(appointmentDao.rows)[appointment.id := appointment]
      ensures appointment.id !in old(appointmentDao.rows) ==> appointmentDao.rows == old(appointmentDao.rows)
    {
      appointmentDao.UpdateAppointment(appointment);
      r := Success(appointment);
    }

    /** `cancelAppointment`: rewrites the status of an existing appointment to
        "Cancelada" and keeps the row; fails with "Cita no encontrada" otherwise. */
    method CancelAppointment(appointmentId: string) returns (r: Result<()>)
      requires Valid()
      modifies appointmentDao
      ensures Valid()
      ensures appointmentId in old(appointmentDao.rows) ==>
                r == Success(()) && appointmentDao.rows == CancelledIn(old(appointmentDao.rows), appointmentId)
      ensures appointmentId !in old(appointmentDao.rows) ==>
                r == Failure(Some(AppointmentNotFound)) && appointmentDao.rows == old(appointmentDao.rows)
    {
      var appointment := appointmentDao.GetAppointmentById(appointmentId);
      if appointment.Some? {
        appointmentDao.UpdateAppointment(appointment.value.(status := Cancelled));
        r := Success(());
      } else {
        r := Failure(Some(AppointmentNotFound));
      }
    }
  }
}

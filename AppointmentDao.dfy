/** The `appointments` table and its data-access object (`AppointmentDao`). */
module AppointmentStore {
  import opened Wrappers
  import opened Domain
  import opened Sorting
  import opened Tables

  function AppointmentId(a: Appointment): string {
    a.id
  }

  /** The order of `ORDER BY date DESC`. */
  function LaterFirst(a: Appointment, b: Appointment): bool {
    a.date >= b.date
  }

  lemma LaterFirstIsTotalPreorder()
    ensures TotalPreorder(LaterFirst)
  {
  }

  /** The rows matching `keep`, latest date first: a scan followed by a sort. */
  method SelectLatestFirst(rows: map<string, Appointment>, keep: Appointment -> bool) returns (r: seq<Appointment>)
    requires KeyedBy(rows, AppointmentId)
    ensures forall a :: multiset(r)[a] == if a in rows.Values && keep(a) then 1 else 0
    ensures forall i, j :: 0 <= i < j < |r| ==> r[i].date >= r[j].date
  {
    var found := Select(rows, AppointmentId, keep);
    r := SortBy(found, LaterFirst);
    LaterFirstIsTotalPreorder();
    SortBySorted(found, LaterFirst);
  }

  class AppointmentDao {
    var rows: map<string, Appointment>

    ghost predicate Valid()
      reads this
    {
      KeyedBy(rows, AppointmentId)
    }

    constructor ()
      ensures Valid() && rows == map[]
    {
      rows := map[];
    }

    /** `SELECT * FROM appointments WHERE userId = :userId ORDER BY date DESC`. */
    method GetAppointmentsByUser(userId: string) returns (r: seq<Appointment>)
      requires Valid()
      ensures forall a :: multiset(r)[a] == if a in rows.Values && a.userId == userId then 1 else 0
      ensures forall i, j :: 0 <= i < j < |r| ==> r[i].date >= r[j].date
    {
      r := SelectLatestFirst(rows, (a: Appointment) => a.userId == userId);
    }

    /** `SELECT * FROM appointments WHERE petId = :petId ORDER BY date DESC`. */
    method GetAppointmentsByPet(petId: string) returns (r: seq<Appointment>)
      requires Valid()
      ensures forall a :: multiset(r)[a] == if a in rows.Values && a.petId == petId then 1 else 0
      ensures forall i, j :: 0 <= i < j < |r| ==> r[i].date >= r[j].date
    {
      r := SelectLatestFirst(rows, (a: Appointment) => a.petId == petId);
    }

    /** `SELECT * FROM appointments WHERE serviceId = :serviceId ORDER BY date DESC`. */
    method GetAppointmentsByService(serviceId: string) returns (r: seq<Appointment>)
      requires Valid()
      ensures forall a :: multiset(r)[a] == if a in rows.Values && a.serviceId == serviceId then 1 else 0
      ensures forall i, j :: 0 <= i < j < |r| ==> r[i].date >= r[j].date
    {
      r := SelectLatestFirst(rows, (a: Appointment) => a.serviceId == serviceId);
    }

    /** `SELECT * FROM appointments WHERE id = :appointmentId`: the row, or null. */
    function GetAppointmentById(appointmentId: string): (r: Option<Appointment>)
      reads this
      requires Valid()
      ensures r.Some? <==> appointmentId in rows
      ensures r.Some? ==> r.value == rows[appointmentId] && r.value.id == appointmentId
    {
      if appointmentId in rows then Some(rows[appointmentId]) else None
    }

    /** `@Insert(onConflict = REPLACE)`: the row under the key becomes the argument. */
    method InsertAppointment(appointment: Appointment)
      requires Valid()
      modifies this
      ensures Valid()
      ensures rows == old(rows)[appointment.id := appointment]
    {
      rows := rows[appointment.id := appointment];
    }

    /** `@Update`: overwrites the row with the same key; no effect when there is none. */
    method UpdateAppointment(appointment: Appointment)
      requires Valid()
      modifies this
      ensures Valid()
      ensures appointment.id in old(rows) ==> rows == old(rows)[appointment.id := appointment]
      ensures appointment.id !in old(rows) ==> rows == old(rows)
    {
      if appointment.id in rows {
        rows := rows[appointment.id := appointment];
      }
    }

    /** `@Delete`: removes the row with the argument's key. */
    method DeleteAppointment(appointment: Appointment)
      requires Valid()
      modifies this
      ensures Valid()
      ensures rows == old(rows) - {appointment.id}
    {
      rows := rows - {appointment.id};
    }

    /** `DELETE FROM appointments WHERE id = :appointmentId`. */
    method DeleteAppointmentById(appointmentId: string)
      requires Valid()
      modifies this
      ensures Valid()
      ensures rows == old(rows) - {appointmentId}
    {
      rows := rows - {appointmentId};
    }
  }
}

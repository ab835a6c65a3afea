/** The `veterinary_services` table and its data-access object (`VeterinaryServiceDao`). */
module ServiceStore {
  import opened Wrappers
  import opened Domain
  import opened Strings
  import opened Sorting
  import opened Tables

  function ServiceId(s: VeterinaryService): string {
    s.id
  }

  /** The order of `ORDER BY category ASC` on a text column. */
  function CategoryFirst(a: VeterinaryService, b: VeterinaryService): bool {
    TextLe(a.category, b.category)
  }

  lemma CategoryFirstIsTotalPreorder()
    ensures TotalPreorder(CategoryFirst)
  {
    forall a: VeterinaryService, b: VeterinaryService ensures CategoryFirst(a, b) || CategoryFirst(b, a) {
      TextLeTotal(a.category, b.category);
    }
    forall a: VeterinaryService, b: VeterinaryService, c: VeterinaryService
      | CategoryFirst(a, b) && CategoryFirst(b, c)
      ensures CategoryFirst(a, c)
    {
      TextLeTransitive(a.category, b.category, c.category);
    }
  }

  class VeterinaryServiceDao {
    var rows: map<string, VeterinaryService>

    ghost predicate Valid()
      reads this
    {
      KeyedBy(rows, ServiceId)
    }

    constructor ()
      ensures Valid() && rows == map[]
    {
      rows := map[];
    }

    /** `SELECT * FROM veterinary_services WHERE isAvailable = 1 ORDER BY category ASC`. */
    method GetAllServices() returns (r: seq<VeterinaryService>)
      requires Valid()
      ensures forall s :: multiset(r)[s] == if s in rows.Values && s.isAvailable then 1 else 0
      ensures forall i, j :: 0 <= i < j < |r| ==> TextLe(r[i].category, r[j].category)
    {
      var found := Select(rows, ServiceId, (s: VeterinaryService) => s.isAvailable);
      r := SortBy(found, CategoryFirst);
      CategoryFirstIsTotalPreorder();
      SortBySorted(found, CategoryFirst);
    }

    /** `SELECT * FROM veterinary_services WHERE id = :serviceId`: the row whatever its availability, or null. */
    function GetServiceById(serviceId: string): (r: Option<VeterinaryService>)
      reads this
      requires Valid()
      ensures r.Some? <==> serviceId in rows
      ensures r.Some? ==> r.value == rows[serviceId] && r.value.id == serviceId
    {
      if serviceId in rows then Some(rows[serviceId]) else None
    }

    /** `SELECT * FROM veterinary_services WHERE category = :category AND isAvailable = 1`, in no set order. */
    method GetServicesByCategory(category: string) returns (r: seq<VeterinaryService>)
      requires Valid()
      ensures forall s :: multiset(r)[s] == if s in rows.Values && s.category == category && s.isAvailable then 1 else 0
    {
      r := Select(rows, ServiceId, (s: VeterinaryService) => s.category == category && s.isAvailable);
    }

    /** `@Insert(onConflict = REPLACE)` of one row. */
    method InsertService(service: VeterinaryService)
      requires Valid()
      modifies this
      ensures Valid()
      ensures rows == old(rows)[service.id := service]
    {
      rows := rows[service.id := service];
    }

    /** `@Insert(onConflict = REPLACE)` of a list: the rows inserted one after the other. */
    method InsertServices(services: seq<VeterinaryService>)
      requires Valid()
      modifies this
      ensures Valid()
      ensures rows == InsertAll(old(rows), services, ServiceId)
    {
      for i := 0 to |services|
        invariant Valid()
        invariant InsertAll(old(rows), services, ServiceId) == InsertAll(rows, services[i..], ServiceId)
      {
        assert services[i..] == [services[i]] + services[i + 1..];
        rows := rows[services[i].id := services[i]];
      }
    }

    /** `@Update`: overwrites the row with the same key; no effect when there is none. */
    method UpdateService(service: VeterinaryService)
      requires Valid()
      modifies this
      ensures Valid()
      ensures service.id in old(rows) ==> rows == old(rows)[service.id := service]
      ensures service.id !in old(rows) ==> rows == old(rows)
    {
      if service.id in rows {
        rows := rows[service.id := service];
      }
    }

    /** `@Delete`: removes the row with the argument's key and no other. */
    method DeleteService(service: VeterinaryService)
      requires Valid()
      modifies this
      ensures Valid()
      ensures rows == old(rows) - {service.id}
    {
      rows := rows - {service.id};
    }
  }
}

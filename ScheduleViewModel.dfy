/** The home screen's schedule (`ScheduleViewModel`): every emission of the
    user's appointments is joined with the service and the pet it names,
    appointments whose service or pet cannot be found are skipped, and the
    resulting entries are published in ascending order of their date. The two
    lookups are parameters: the service catalogue's `getServiceById` and the
    pet repository's `getPetById`. */
module Schedule {
  import opened Wrappers
  import opened Domain
  import opened Sorting

  /** The entry of a booked appointment, with the names of its service and pet. */
  function ItemOf(a: Appointment, service: VeterinaryService, pet: Pet): (item: ScheduleItem)
    ensures item.ServiceAppointment?
    ensures item.id == a.id && item.dateTime == a.date && item.time == a.time && item.status == a.status
    ensures item.petId == pet.id && item.petName == pet.name
    ensures item.serviceName == service.name && item.serviceCategory == service.category
    ensures item.serviceDescription == service.shortDescription
  {
    ServiceAppointment(id := a.id, petId := pet.id, petName := pet.name,
                       serviceName := service.name, serviceCategory := service.category,
                       serviceDescription := service.shortDescription,
                       dateTime := a.date, time := a.time, status := a.status)
  }

  /** Both lookups of the appointment succeed. */
  predicate Resolves(a: Appointment, services: string -> Option<VeterinaryService>, pets: string -> Option<Pet>) {
    services(a.serviceId).Some? && pets(a.petId).Some?
  }

  /** The entry of an appointment whose lookups succeed. */
  function Joined(a: Appointment, services: string -> Option<VeterinaryService>, pets: string -> Option<Pet>): ScheduleItem
    requires Resolves(a, services, pets)
  {
    ItemOf(a, services(a.serviceId).value, pets(a.petId).value)
  }

  /** The entries the loop collects, in the order of the appointments. */
  function JoinedItems(appointments: seq<Appointment>,
                       services: string -> Option<VeterinaryService>, pets: string -> Option<Pet>): seq<ScheduleItem>
  {
    if appointments == [] then []
    else
      var last := appointments[|appointments| - 1];
      JoinedItems(appointments[..|appointments| - 1], services, pets)
        + (if Resolves(last, services, pets) then [Joined(last, services, pets)] else [])
  }

  /** The published order: by `dateTime`, earliest first. */
  predicate ScheduleLe(x: ScheduleItem, y: ScheduleItem) {
    x.dateTime <= y.dateTime
  }

  lemma ScheduleLeIsTotalPreorder()
    ensures TotalPreorder(ScheduleLe)
  {
  }

  /** The list the view-model publishes for one emission. */
  function UpcomingItems(appointments: seq<Appointment>,
                         services: string -> Option<VeterinaryService>, pets: string -> Option<Pet>): seq<ScheduleItem>
  {
    SortBy(JoinedItems(appointments, services, pets), ScheduleLe)
  }

  /** An entry is collected exactly for each appointment whose service and pet
      are both found; orphans never appear and nothing else does. */
  lemma {:induction false} JoinedItemsMembers(appointments: seq<Appointment>,
                                              services: string -> Option<VeterinaryService>,
                                              pets: string -> Option<Pet>, x: ScheduleItem)
    ensures x in JoinedItems(appointments, services, pets) <==>
              exists k :: 0 <= k < |appointments| && Resolves(appointments[k], services, pets)
                          && x == Joined(appointments[k], services, pets)
  {
    if appointments != [] {
      var n := |appointments| - 1;
      var init := appointments[..n];
      JoinedItemsMembers(init, services, pets, x);
      if x in JoinedItems(appointments, services, pets) && x !in JoinedItems(init, services, pets) {
        assert Resolves(appointments[n], services, pets) && x == Joined(appointments[n], services, pets);
      }
      if exists k :: 0 <= k < |appointments| && Resolves(appointments[k], services, pets)
                     && x == Joined(appointments[k], services, pets) {
        var k :| 0 <= k < |appointments| && Resolves(appointments[k], services, pets)
                 && x == Joined(appointments[k], services, pets);
        if k < n {
          assert init[k] == appointments[k];
        }
      }
      forall k | 0 <= k < n && Resolves(init[k], services, pets) && x == Joined(init[k], services, pets)
        ensures x in JoinedItems(appointments, services, pets)
      {
        assert init[k] == appointments[k];
      }
    }
  }

  /** At most one entry per appointment, and exactly one each when every
      lookup succeeds. */
  lemma {:induction false} JoinedItemsLength(appointments: seq<Appointment>,
                                             services: string -> Option<VeterinaryService>,
                                             pets: string -> Option<Pet>)
    ensures |JoinedItems(appointments, services, pets)| <= |appointments|
    ensures (forall k :: 0 <= k < |appointments| ==> Resolves(appointments[k], services, pets)) ==>
              |JoinedItems(appointments, services, pets)| == |appointments|
  {
    if appointments != [] {
      var n := |appointments| - 1;
      JoinedItemsLength(appointments[..n], services, pets);
      if forall k :: 0 <= k < |appointments| ==> Resolves(appointments[k], services, pets) {
        forall k | 0 <= k < n ensures Resolves(appointments[..n][k], services, pets) {
          assert appointments[..n][k] == appointments[k];
        }
      }
    }
  }

  /** The published list is in ascending date order, holds exactly the
      collected entries, is no longer than the emission, and keeps entries of
      equal date in the order of their appointments. */
  lemma UpcomingItemsProperties(appointments: seq<Appointment>,
                                services: string -> Option<VeterinaryService>,
                                pets: string -> Option<Pet>, e: ScheduleItem)
    ensures Sorted(UpcomingItems(appointments, services, pets), ScheduleLe)
    ensures multiset(UpcomingItems(appointments, services, pets)) == multiset(JoinedItems(appointments, services, pets))
    ensures |UpcomingItems(appointments, services, pets)| <= |appointments|
    ensures Equivalents(UpcomingItems(appointments, services, pets), e, ScheduleLe)
         == Equivalents(JoinedItems(appointments, services, pets), e, ScheduleLe)
  {
    ScheduleLeIsTotalPreorder();
    SortBySorted(JoinedItems(appointments, services, pets), ScheduleLe);
    SortByStable(JoinedItems(appointments, services, pets), e, ScheduleLe);
    JoinedItemsLength(appointments, services, pets);
  }

  /** Published entries are exactly the entries of resolvable appointments. */
  lemma UpcomingItemsMembers(appointments: seq<Appointment>,
                             services: string -> Option<VeterinaryService>,
                             pets: string -> Option<Pet>, x: ScheduleItem)
    ensures x in UpcomingItems(appointments, services, pets) <==>
              exists k :: 0 <= k < |appointments| && Resolves(appointments[k], services, pets)
                          && x == Joined(appointments[k], services, pets)
  {
    var joined := JoinedItems(appointments, services, pets);
    assert multiset(UpcomingItems(appointments, services, pets)) == multiset(joined);
    assert x in UpcomingItems(appointments, services, pets) <==> x in multiset(joined);
    JoinedItemsMembers(appointments, services, pets, x);
  }

  /** The `for` loop over one emission: the entry of each appointment whose
      service and pet are found, in order. */
  method CollectScheduleItems(appointments: seq<Appointment>,
                              services: string -> Option<VeterinaryService>, pets: string -> Option<Pet>)
    returns (items: seq<ScheduleItem>)
    ensures items == JoinedItems(appointments, services, pets)
  {
    items := [];
    for i := 0 to |appointments|
      invariant items == JoinedItems(appointments[..i], services, pets)
    {
      assert appointments[..i + 1][..i] == appointments[..i];
      var appointment := appointments[i];
      var service := services(appointment.serviceId);
      var pet := pets(appointment.petId);
      if service.Some? && pet.Some? {
        items := items + [ItemOf(appointment, service.value, pet.value)];
      }
    }
    assert appointments[..|appointments|] == appointments;
  }

  class ScheduleViewModel {
    var upcomingScheduleItems: seq<ScheduleItem>
    var isLoading: bool
    const userId: string

    constructor (userId: string)
      ensures upcomingScheduleItems == [] && !isLoading && this.userId == userId
    {
      upcomingScheduleItems := [];
      isLoading := false;
      this.userId := userId;
    }

    /** The start of `loadUpcomingItems`: the loading flag goes up. */
    method StartLoading()
      modifies this
      ensures isLoading && upcomingScheduleItems == old(upcomingScheduleItems)
    {
      isLoading := true;
    }

    /** One emission of the user's appointments: the joined entries, sorted by
        date, are published and loading ends. */
    method OnAppointments(appointments: seq<Appointment>,
                          services: string -> Option<VeterinaryService>, pets: string -> Option<Pet>)
      modifies this
      ensures upcomingScheduleItems == UpcomingItems(appointments, services, pets)
      ensures !isLoading
    {
      var scheduleItems := CollectScheduleItems(appointments, services, pets);
      scheduleItems := SortBy(scheduleItems, ScheduleLe);
      upcomingScheduleItems := scheduleItems;
      isLoading := false;
    }

    /** A failure of the appointment stream: loading ends with an empty list. */
    method OnFailure()
      modifies this
      ensures upcomingScheduleItems == [] && !isLoading
    {
      isLoading := false;
      upcomingScheduleItems := [];
    }
  }
}

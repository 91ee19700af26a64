/**
 * Properties of the forward mapper: what each output record depends on,
 * which inputs cannot affect it, and how its start date decomposes.
 */
module MapperProperties {
  import opened Timefold
  import opened Bryntum
  import opened Mapper

  datatype Option<T> = None | Some(value: T)

  /** `root` with visit `j` replaced by `v`. */
  function WithVisit(root: Root, j: nat, v: Visit): (edited: Root)
    requires j < |root.modelInput.visits|
  {
    root.(modelInput := root.modelInput.(visits := root.modelInput.visits[j := v]))
  }

  /** `root` with its vehicle list replaced by `vehicles`. */
  function WithVehicles(root: Root, vehicles: seq<Vehicle>): (edited: Root)
  {
    root.(modelInput := root.modelInput.(vehicles := vehicles))
  }

  /** The identifiers of a list of visits, in order. */
  function VisitIds(visits: seq<Visit>): (ids: seq<string>)
  {
    if |visits| == 0 then [] else [visits[0].id] + VisitIds(visits[1..])
  }

  /** The identifiers of a list of events, in order. */
  function EventIds(events: seq<Event>): (ids: seq<string>)
  {
    if |events| == 0 then [] else [events[0].id] + EventIds(events[1..])
  }

  /** The identifiers of a list of vehicles, in order. */
  function VehicleIds(vehicles: seq<Vehicle>): (ids: seq<string>)
  {
    if |vehicles| == 0 then [] else [vehicles[0].id] + VehicleIds(vehicles[1..])
  }

  /** The identifiers of a list of resources, in order. */
  function ResourceIds(resources: seq<Resource>): (ids: seq<string>)
  {
    if |resources| == 0 then [] else [resources[0].id] + ResourceIds(resources[1..])
  }

  /** Reads back the time part of a start or end date built under a
      planning window starting at `planningStart`; `None` when the date
      does not begin with `planningStart` followed by "T". */
  function SplitDate(date: string, planningStart: string): (t: Option<string>)
    ensures t.Some? <==> planningStart + "T" <= date
    ensures t.Some? ==> date == planningStart + "T" + t.value
  {
    var prefix := planningStart + "T";
    if prefix <= date then Some(date[|prefix|..]) else None
  }

  // ---------------------------------------------------------------------
  // The reference description pins the output down completely.
  // ---------------------------------------------------------------------

  /** Any output that meets the field-by-field description IS the mapper's
      output: the description leaves no freedom. */
  lemma FaithfulDeterminesOutput(root: Root, d: Data)
    requires Faithful(root, d)
    ensures d == Transform(root)
  {
  }

  // ---------------------------------------------------------------------
  // Identifiers and cardinality.
  // ---------------------------------------------------------------------

  lemma {:induction false} EventIdsOfEvents(visits: seq<Visit>, planningStart: string)
    ensures EventIds(ToEvents(visits, planningStart)) == VisitIds(visits)
    decreases |visits|
  {
    if |visits| > 0 {
      var es := ToEvents(visits, planningStart);
      assert es[1..] == ToEvents(visits[1..], planningStart);
      EventIdsOfEvents(visits[1..], planningStart);
    }
  }

  lemma {:induction false} ResourceIdsOfResources(vehicles: seq<Vehicle>)
    ensures ResourceIds(ToResources(vehicles)) == VehicleIds(vehicles)
    decreases |vehicles|
  {
    if |vehicles| > 0 {
      var rs := ToResources(vehicles);
      assert rs[1..] == ToResources(vehicles[1..]);
      ResourceIdsOfResources(vehicles[1..]);
    }
  }

  /** The event ids are the visit ids and the resource ids are the vehicle
      ids, in the same order: the output is a view of the input, with no
      identifier dropped, added or reordered. */
  lemma IdentifiersCarriedThrough(root: Root)
    ensures EventIds(Transform(root).events) == VisitIds(root.modelInput.visits)
    ensures ResourceIds(Transform(root).resources) == VehicleIds(root.modelInput.vehicles)
  {
    EventIdsOfEvents(root.modelInput.visits, root.modelInput.planningWindow.startDate);
    ResourceIdsOfResources(root.modelInput.vehicles);
  }

  // ---------------------------------------------------------------------
  // Constant placeholder resource, start and end dates.
  // ---------------------------------------------------------------------

  /** Every event sits on the placeholder resource and ends when it starts,
      whatever the input. */
  lemma EveryEventUnassignedAndInstantaneous(root: Root)
    ensures forall e :: e in Transform(root).events ==>
              e.resourceId == UnassignedPlaceholder && e.endDate == e.startDate
  {
  }

  /** The time part of every event's start and end date is the first
      window's `minStartTime`, or the planning start date when the visit
      lists no window; the date part is always the planning start date. */
  lemma StartDateRoundTrip(root: Root, i: nat)
    requires i < |root.modelInput.visits|
    ensures var p := root.modelInput.planningWindow.startDate;
            var visit := root.modelInput.visits[i];
            var e := Transform(root).events[i];
            && SplitDate(e.startDate, p) == SplitDate(e.endDate, p)
            && (|visit.timeWindows| > 0 ==> SplitDate(e.startDate, p) == Some(visit.timeWindows[0].minStartTime))
            && (|visit.timeWindows| == 0 ==> SplitDate(e.startDate, p) == Some(p))
  {
  }

  // ---------------------------------------------------------------------
  // What each record depends on.
  // ---------------------------------------------------------------------

  /** Only the first time window is consulted: replacing a visit's window
      list by any other list with the same first `minStartTime` changes
      nothing in the output. */
  lemma OnlyFirstWindowMatters(root: Root, j: nat, windows: seq<TimeWindow>)
    requires j < |root.modelInput.visits|
    requires |root.modelInput.visits[j].timeWindows| > 0 && |windows| > 0
    requires windows[0].minStartTime == root.modelInput.visits[j].timeWindows[0].minStartTime
    ensures Transform(WithVisit(root, j, root.modelInput.visits[j].(timeWindows := windows)))
            == Transform(root)
  {
  }

  /** Editing one visit leaves every other event and every resource as it
      was. */
  lemma EventDependsOnlyOnItsVisit(root: Root, i: nat, j: nat, v: Visit)
    requires i < |root.modelInput.visits| && j < |root.modelInput.visits| && i != j
    ensures Transform(WithVisit(root, j, v)).events[i] == Transform(root).events[i]
    ensures Transform(WithVisit(root, j, v)).resources == Transform(root).resources
  {
  }

  /** Vehicles feed only the resources: any vehicle list yields the same
      events. */
  lemma EventsIgnoreVehicles(root: Root, vehicles: seq<Vehicle>)
    ensures Transform(WithVehicles(root, vehicles)).events == Transform(root).events
  {
  }

  // ---------------------------------------------------------------------
  // A worked case: two vehicles, three visits without time windows.
  // ---------------------------------------------------------------------

  lemma TwoVehiclesThreeUnwindowedVisits(p: string, a: Visit, b: Visit, c: Visit, v1: Vehicle, v2: Vehicle)
    requires a.timeWindows == [] && b.timeWindows == [] && c.timeWindows == []
    ensures var d := Transform(Root(ModelInput([v1, v2], [a, b, c], PlanningWindow(p))));
            && |d.resources| == 2 && |d.events| == 3
            && forall e :: e in d.events ==>
                 e.resourceId == "unassigned-placeholder" && e.startDate == p + "T" + p
  {
  }
}

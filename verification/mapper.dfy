/**
 * The forward mapper from the routing planner's input to the scheduler
 * widget's resources and events.
 */
module Mapper {
  import opened Timefold
  import opened Bryntum

  /** Every event is put on this resource id, whatever the input says. */
  const UnassignedPlaceholder: string := "unassigned-placeholder"

  /** Separates the date part from the time part of a start or end date. */
  const DateTimeSeparator: string := "T"

  /** What follows the "T" in a visit's start date: the FIRST listed
      window's `minStartTime` (not the smallest one), or the planning start
      date itself when the visit lists no window. */
  function StartSuffix(visit: Visit, planningStart: string): (suffix: string)
  {
    if |visit.timeWindows| > 0 then visit.timeWindows[0].minStartTime else planningStart
  }

  /** `<planning start date>T<suffix>`; used for both start and end. */
  function MockDate(visit: Visit, planningStart: string): (date: string)
  {
    planningStart + DateTimeSeparator + StartSuffix(visit, planningStart)
  }

  /** The resource that stands for one vehicle. */
  function ToResource(vehicle: Vehicle): (r: Resource)
    ensures ResourceOf(vehicle, r)
  {
    Resource(vehicle.id, vehicle.id)
  }

  /** The event that stands for one visit. */
  function ToEvent(visit: Visit, planningStart: string): (e: Event)
    ensures EventOf(visit, planningStart, e)
  {
    var date := MockDate(visit, planningStart);
    Event(
      id := visit.id,
      name := visit.name,
      resourceId := UnassignedPlaceholder,
      startDate := date,
      endDate := date,
      duration := visit.serviceDuration,
      isPinned := visit.pinningRequested
    )
  }

  // ---------------------------------------------------------------------
  // Reference description of a correct output, stated field by field.
  // ---------------------------------------------------------------------

  /** `r` is the resource that stands for `vehicle`. */
  ghost predicate ResourceOf(vehicle: Vehicle, r: Resource)
  {
    r.id == vehicle.id && r.name == vehicle.id
  }

  /** `e` is the event that stands for `visit` under a planning window
      starting at `planningStart`. */
  ghost predicate EventOf(visit: Visit, planningStart: string, e: Event)
  {
    && e.id == visit.id
    && e.name == visit.name
    && e.resourceId == UnassignedPlaceholder
    && (|visit.timeWindows| > 0 ==>
          e.startDate == planningStart + "T" + visit.timeWindows[0].minStartTime)
    && (|visit.timeWindows| == 0 ==>
          e.startDate == planningStart + "T" + planningStart)
    && e.endDate == e.startDate
    && e.duration == visit.serviceDuration
    && e.isPinned == visit.pinningRequested
  }

  /** `d` holds exactly one resource per vehicle and one event per visit of
      `root`, each in the input's order and each standing for its source. */
  ghost predicate Faithful(root: Root, d: Data)
  {
    var input := root.modelInput;
    && |d.resources| == |input.vehicles|
    && (forall i :: 0 <= i < |d.resources| ==> ResourceOf(input.vehicles[i], d.resources[i]))
    && |d.events| == |input.visits|
    && (forall i :: 0 <= i < |d.events| ==>
          EventOf(input.visits[i], input.planningWindow.startDate, d.events[i]))
  }

  // ---------------------------------------------------------------------
  // The mapper.
  // ---------------------------------------------------------------------

  /** Vehicles to resources, element by element, in order. */
  function ToResources(vehicles: seq<Vehicle>): (rs: seq<Resource>)
    ensures |rs| == |vehicles|
    ensures forall i :: 0 <= i < |vehicles| ==> ResourceOf(vehicles[i], rs[i])
  {
    if |vehicles| == 0 then []
    else [ToResource(vehicles[0])] + ToResources(vehicles[1..])
  }

  /** Visits to events, element by element, in order. */
  function ToEvents(visits: seq<Visit>, planningStart: string): (es: seq<Event>)
    ensures |es| == |visits|
    ensures forall i :: 0 <= i < |visits| ==> EventOf(visits[i], planningStart, es[i])
  {
    if |visits| == 0 then []
    else [ToEvent(visits[0], planningStart)] + ToEvents(visits[1..], planningStart)
  }

  /** The forward mapper. Total over these records: it has no precondition
      and no error result. */
  function Transform(root: Root): (d: Data)
    ensures Faithful(root, d)
  {
    var input := root.modelInput;
    Data(
      resources := ToResources(input.vehicles),
      events := ToEvents(input.visits, input.planningWindow.startDate)
    )
  }
}

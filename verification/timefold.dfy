/**
 * Planning input of the vehicle-routing solver, reduced to the fields the
 * scheduler mapper reads. The full input also carries shifts, locations,
 * skills and dependencies; none of those reach the mapper.
 */
module Timefold {

  /** One admissible time window of a visit; only its earliest start is read. */
  datatype TimeWindow = TimeWindow(minStartTime: string)

  /** A unit of work to be scheduled. `serviceDuration` is kept as the
      solver's duration token (for example "PT30M"), never parsed. */
  datatype Visit = Visit(
    id: string,
    name: string,
    timeWindows: seq<TimeWindow>,
    serviceDuration: string,
    pinningRequested: bool
  )

  /** A vehicle (technician) that visits are assigned to. */
  datatype Vehicle = Vehicle(id: string)

  /** The global scheduling horizon; only its start date is read. */
  datatype PlanningWindow = PlanningWindow(startDate: string)

  datatype ModelInput = ModelInput(
    vehicles: seq<Vehicle>,
    visits: seq<Visit>,
    planningWindow: PlanningWindow
  )

  /** The document loaded from the dataset file. */
  datatype Root = Root(modelInput: ModelInput)
}

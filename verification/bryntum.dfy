/**
 * Records consumed by the scheduler widget: one row (resource) per vehicle
 * and one bar (event) per visit.
 */
module Bryntum {

  datatype Resource = Resource(id: string, name: string)

  /** An event as the mapper builds it: the widget's own fields plus the
      two extra fields `duration` (the raw duration token) and `isPinned`. */
  datatype Event = Event(
    id: string,
    name: string,
    resourceId: string,
    startDate: string,
    endDate: string,
    duration: string,
    isPinned: bool
  )

  /** What the forward mapper returns. It never fills an assignment list,
      so none is modelled. */
  datatype Data = Data(resources: seq<Resource>, events: seq<Event>)
}

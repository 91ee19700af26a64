# Routing-planner to scheduler mapper

This project models the forward mapper of a scheduling demo app. The mapper
takes a vehicle-routing planning input and builds what a scheduler widget
needs to draw it. The input is a root document holding vehicles, visits and a
planning window. The output is one resource (row) per vehicle and one event
(bar) per visit.

The model has four modules:

- `Timefold` (`timefold.dfy`): the input records, reduced to the fields the
  mapper reads. These are a vehicle's `id`, and a visit's `id`, `name`,
  `timeWindows[].minStartTime`, `serviceDuration` and `pinningRequested`. The
  planning window contributes `startDate`. The mapper imports `Root`,
  `Vehicle` and `Visit` from `src/types/timefold.ts`
  (`src/mappers/timefold.ts:1`), but that file declares only `UserDTO` and
  `CreateUserPayload`. The records are therefore kept minimal.
- `Bryntum` (`bryntum.dfy`): the output records. They use the widget's field
  names from `src/types/bryntum.ts`, plus the `duration` and `isPinned` fields
  the mapper adds.
- `Mapper` (`mapper.dfy`): the mapper itself (`Transform`) and a field-by-field
  reference description of a correct output (`Faithful`, `EventOf`,
  `ResourceOf`).
- `MapperProperties` (`mapper_properties.dfy`): lemmas covering uniqueness of
  the output, identifiers, the placeholder resource, how start and end dates
  decompose, and what each record depends on.

What the code does (the model follows the code):

- The start date is `planningWindow.startDate + "T" + X`. The comment at
  `src/mappers/timefold.ts:36` speaks of the "earliest" time window, but
  lines 37-38 read `timeWindows[0]`. So X is the FIRST listed window's
  `minStartTime`, not the smallest one. When a visit has no window, X is the
  planning start date itself (line 39), so the fallback start reads
  `<date>T<date>`.
- The end date is the same string as the start date. The comment at line 41
  speaks of "start date + service duration", but line 47 repeats the start
  expression. The service duration is never parsed or added.
- `resourceId` is always the constant `"unassigned-placeholder"` (line 55).
- `duration` carries the raw duration token unchanged (line 58).
- The returned object has no `assignments` list. `src/types/bryntum.ts:32`
  declares one in the widget's data type, but lines 67-70 of the mapper
  return only `resources` and `events`.

## Model

| member | source | states |
|---|---|---|
| Mapper.Transform | src/mappers/timefold.ts:17-71 | Total over these records. The result has one resource per vehicle and one event per visit, in input order, and each meets the field-by-field reference description `Faithful`. |
| Mapper.StartSuffix | src/mappers/timefold.ts:37-39 | The value the source calls `earliestTimeWindow`. It has no contract of its own; it is specified through `EventOf` via `ToEvent` and `ToEvents`. |
| Mapper.MockDate | src/mappers/timefold.ts:46-47 | The start string, reused as the end string. It has no contract of its own; it is specified through `EventOf` via `ToEvent` and `ToEvents`. |
| Mapper.ToResource | src/mappers/timefold.ts:21-25 | The per-vehicle map: its result meets `ResourceOf`, so `id` and `name` both equal the vehicle's `id`. |
| Mapper.ToEvent | src/mappers/timefold.ts:35-60 | The per-visit map: its result meets `EventOf`. That fixes all seven fields, including the first-window start, the `<date>T<date>` fallback and an end equal to the start. |
| Mapper.ToResources | src/mappers/timefold.ts:21-25 | One resource per vehicle, in order; resource i has `id` and `name` both equal to vehicle i's `id`. |
| Mapper.ToEvents | src/mappers/timefold.ts:35-61 | One event per visit, in order. Event i carries visit i's `id`, `name`, `serviceDuration` and `pinningRequested`, and sits on the placeholder resource. Its start is `<planning start>T<first window's minStartTime>`, or `<planning start>T<planning start>` without windows. Its end equals its start. |
| MapperProperties.FaithfulDeterminesOutput | src/mappers/timefold.ts:17-71 | The reference description leaves no freedom: any output meeting it equals the mapper's output. |
| MapperProperties.EventIdsOfEvents | src/mappers/timefold.ts:35-51 | The ids of the mapped events, in order, are exactly the visits' ids. |
| MapperProperties.ResourceIdsOfResources | src/mappers/timefold.ts:21-22 | The ids of the mapped resources, in order, are exactly the vehicles' ids. |
| MapperProperties.IdentifiersCarriedThrough | src/mappers/timefold.ts:18-51 | For a whole input, event ids equal visit ids and resource ids equal vehicle ids, with nothing dropped, added or reordered. |
| MapperProperties.EveryEventUnassignedAndInstantaneous | src/mappers/timefold.ts:46-55 | Every event's `resourceId` is `"unassigned-placeholder"` and its end date equals its start date, whatever the input. |
| MapperProperties.SplitDate | src/mappers/timefold.ts:46 | Reading back a date succeeds exactly when it begins with the planning start date and "T", and then the date is that prefix followed by the returned time part. |
| MapperProperties.StartDateRoundTrip | src/mappers/timefold.ts:37-39 | Reading back any event's start or end date gives the same time part. That part is the first window's `minStartTime`, or the planning start date when the visit lists no window. |
| MapperProperties.OnlyFirstWindowMatters | src/mappers/timefold.ts:37-38 | Replacing a visit's windows by any non-empty list with the same first `minStartTime` leaves the whole output unchanged. |
| MapperProperties.EventDependsOnlyOnItsVisit | src/mappers/timefold.ts:35-61 | Editing one visit leaves every other event and all resources unchanged. |
| MapperProperties.EventsIgnoreVehicles | src/mappers/timefold.ts:35-61 | Replacing the vehicle list leaves all events unchanged. |
| MapperProperties.TwoVehiclesThreeUnwindowedVisits | src/mappers/timefold.ts:17-71 | Worked case: two vehicles and three visits with no windows give two resources and three events. Every event is on the placeholder resource and starts at `<planning start>T<planning start>`. |

## Left out

- Duration parsing and date arithmetic: the mapper does neither (its end date is its start date), so nothing is modelled.
- The reverse mapper from edited widget records back to a planning input: it is commented out at its only call site.
- Submitting a solve job and polling it: the caller only appends the returned ticket to a list, and the `postSolutionRequest` call it makes is not defined by the shown `modelService` (`src/services/timefold/service.mock.ts:6-34`).
- Loading the dataset, HTTP plumbing and the user-record service: network and file I/O.
- The React pages, entry points and static widget configuration: UI state, routing and styling.
- Input fields the mapper never reads (shifts, locations, skills, dependencies, priorities, the planning window's end): they cannot affect its output.
- Missing or mistyped input fields: the records assume that every field the mapper reads is present and is a string, a boolean or a list, as declared. The input is an unchecked cast of parsed JSON, so in the source a missing `timeWindows`, `vehicles` or `visits` throws a TypeError, and a missing `minStartTime`, `startDate`, `name` or `pinningRequested` yields the text "undefined" or an `undefined` value. Neither path is modelled.
- Determinism of the mapper (same input, same output) is not stated as a lemma: every Dafny function is deterministic by construction.

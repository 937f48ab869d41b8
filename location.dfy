/** The deep-link address of a screen: a namespace and a list of route
    segments, of which only the last (the leaf) decides what is shown. */
module Location {
  import opened Wrappers

  datatype WorkflowsRoute =
    | WorkflowCollection(query: Option<string>)
    | WorkflowDetail(workflowId: string, runId: Option<string>, tab: Option<string>)
    | WorkflowActivities(workflowId: string, activityId: Option<string>)

  datatype SchedulesRoute =
    | ScheduleCollection(query: Option<string>)
    | ScheduleDetail(scheduleId: string)
    | ScheduleWorkflows(scheduleId: string, query: Option<string>)

  datatype RouteSegment =
    | Workflows(workflows: WorkflowsRoute)
    | Schedules(schedules: SchedulesRoute)

  /** `Location::new` is the constructor: it stores both fields unchanged,
      and equality is structural over them. */
  datatype Location = Location(namespace: string, segments: seq<RouteSegment>)

  /** `Location::leaf`: the last route segment, if any. */
  function Leaf(loc: Location): (r: Option<RouteSegment>)
    ensures r.None? <==> loc.segments == []
    ensures r.Some? ==> r.value == loc.segments[|loc.segments| - 1]
  {
    if loc.segments == [] then None else Some(loc.segments[|loc.segments| - 1])
  }

  /** Appending a segment makes it the leaf, whatever came before. */
  lemma LeafOfAppended(ns: string, prefix: seq<RouteSegment>, seg: RouteSegment)
    ensures Leaf(Location(ns, prefix + [seg])) == Some(seg)
  {
  }
}

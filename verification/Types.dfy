/** The values that flow through the queues and the controller. */
module Types {

  datatype Option<+T> = None | Some(value: T)

  /** A pod-to-node assignment proposed by a scheduler. */
  datatype Binding = Binding(podName: string, podUID: string, nodeName: string)

  datatype Policy = Lenient | AllOrNothing

  /** The part of a PlacementRequest that does not change while it is queued:
      its metadata and its spec. `created` is the creation time in nanoseconds. */
  datatype Request = Request(
    name: string,
    created: int,
    priority: int,
    deleted: bool,
    schedulerName: string,
    policy: Policy,
    bindings: seq<Binding>)

  /** `r` may leave a queue holding `queue`: nothing queued is older. */
  ghost predicate Oldest(queue: multiset<Request>, r: Request) {
    r in queue && forall other :: other in queue ==> r.created <= other.created
  }
}

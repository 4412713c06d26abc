/** Durable operation statuses, shared by the store, the coordinator and the manager. */
module Operations {

  datatype Status =
    | StatusReady
    | StatusAwaiting
    | StatusCanceling
    | StatusCompleted
    | StatusFailed
    | StatusCanceled
    | StatusUnsupported(name: string)

  predicate IsTerminal(status: Status) {
    status == StatusCompleted || status == StatusFailed || status == StatusCanceled
  }
}

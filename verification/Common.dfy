/** Types shared by the Hub, the daemon and the system that joins them.

    Server, task and user identifiers are opaque uuids in the database.  Only
    equality on them and the database's ascending order are ever used, so they
    are numbers here.  Times are milliseconds. */
module Common {
  type ServerId = nat
  type TaskId = nat
  type UserId = nat
  type Time = int

  datatype Option<+T> = None | Some(value: T)

  datatype TaskStatus = Queued | Running | AwaitingApproval | Completed | Failed | Cancelled

  datatype FailureCategory = CapacityExhausted | ProcessError | Unknown

  /** The structured failure a daemon may attach to a result. */
  datatype Failure = Failure(
    category: FailureCategory,
    retryable: Option<bool>,
    message: Option<string>,
    detail: Option<string>)

  /** `task:result` as it travels on the wire; `completed` is COMPLETED against FAILED. */
  datatype ResultPayload = ResultPayload(completed: bool, failure: Option<Failure>, result: string)

  /** Daemon-to-Hub events. */
  datatype Event =
    | Heartbeat
    | StatusUpdate(taskId: TaskId, status: TaskStatus)
    | Log(taskId: TaskId, chunk: string)
    | ApprovalRequest(taskId: TaskId, reason: string)
    | TaskResult(taskId: TaskId, payload: ResultPayload)

  /** Hub-to-daemon messages. */
  datatype Message =
    | SubmitTask(taskId: TaskId)
    | CancelTask(taskId: TaskId)
    | ApprovalDecision(taskId: TaskId, approved: bool)

  datatype Packet = Packet(server: ServerId, message: Message)
}

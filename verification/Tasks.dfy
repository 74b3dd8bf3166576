/** The task entity, what a claim asks for, and what a worker reports back.

    Instants and durations are integers (nanoseconds).  A Go string that is
    `""` and a JSON value that is nil are both the empty string here.
 */
module Tasks {
  datatype Option<+T> = None | Some(value: T)

  datatype Status = Pending | Running | Done | Dead

  datatype TaskError = TaskError(at: int, attempt: int, worker: string, message: string)

  datatype Task = Task(
    id: string,
    queue: string,
    kind: string,
    uniqueKey: string,
    payload: string,
    status: Status,
    attempts: int,
    maxAttempts: int,
    runAt: int,
    expiresAt: Option<int>,
    leasedBy: string,
    leasedUntil: int,
    leaseToken: string,
    errors: seq<TaskError>,
    result: string,
    createdAt: int,
    updatedAt: int)

  datatype ClaimOptions = ClaimOptions(
    workerId: string,
    kinds: seq<string>,
    queues: seq<string>,
    lease: int)

  /** One finished attempt; `task` is the snapshot the worker was handed. */
  datatype Outcome =
    | Success(task: Task, result: string)
    | Failure(task: Task, error: TaskError, retryAt: int, terminal: bool)

  const ZERO_TIME := 0
  const REAP_MESSAGE := "lease expired before completion; attempts exhausted"

  /** A claim: which task, under which lease token. */
  datatype Key = Key(id: string, token: string)

  function KeyOf(t: Task): Key { Key(t.id, t.leaseToken) }
}

/** The task record stored as a queue member, the read-only summaries the
    inspector hands out, and the errors it reports. */
module Task {

  datatype Option<+T> = None | Some(value: T)

  datatype Result<+T, +E> = Ok(value: T) | Err(error: E)

  /** A JSON value of the opaque payload; this core never looks inside it. */
  datatype Value =
    | Null
    | Bool(b: bool)
    | Number(n: real)
    | Str(s: string)
    | Array(items: seq<Value>)
    | Object(fields: map<string, Value>)

  /** The fields of a decoded queue member that the inspector reads. */
  datatype TaskMessage = TaskMessage(
    id: string,
    typ: string,
    payload: map<string, Value>,
    errorMsg: string,
    retry: int,
    retried: int)

  /** JSON decoding of a queue member: `None` when the member is not a
      well-formed task message. It is left abstract; the same decoder stands
      for the Go reader paths and for `cjson.decode` inside the move script. */
  type Decoder = string -> Option<TaskMessage>

  datatype Error =
    | DecodeError            // a member of the ready list did not decode
    | TaskNotFound           // no member matches the (id, score) pair
    | ScriptError            // the move script raised (cjson could not decode a candidate)
    | BackendError(reason: string)  // the round trip to the store failed

  datatype Stats = Stats(
    enqueued: int,
    inProgress: int,
    scheduled: int,
    retry: int,
    dead: int,
    timestamp: int)

  datatype EnqueuedTask = EnqueuedTask(id: string, typ: string, payload: map<string, Value>)

  datatype InProgressTask = InProgressTask(id: string, typ: string, payload: map<string, Value>)

  datatype ScheduledTask = ScheduledTask(
    id: string, typ: string, payload: map<string, Value>, processAt: int)

  datatype RetryTask = RetryTask(
    id: string, typ: string, payload: map<string, Value>,
    processAt: int, errorMsg: string, retried: int, retry: int)

  datatype DeadTask = DeadTask(
    id: string, typ: string, payload: map<string, Value>,
    lastFailedAt: int, errorMsg: string)

  /** `time.Unix(int64(score), 0)` as seconds: the conversion of a score to an
      integer truncates toward zero. */
  function UnixSeconds(score: real): (t: int)
    ensures 0.0 <= score ==> t as real <= score < t as real + 1.0
    ensures score < 0.0 ==> t as real - 1.0 < score <= t as real
  {
    if score >= 0.0 then score.Floor else -((-score).Floor)
  }
}

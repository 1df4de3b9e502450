/**
 * The admission decision of the `/fib` endpoint. A request is checked in a
 * fixed order: the HTTP method, then the delay, then the value, then the
 * name. The first failing check picks the response; if all pass, exactly one
 * job is sent to the bounded job queue and the response is 201 Created.
 * The results of `time.ParseDuration` and `strconv.Atoi` are inputs:
 * `None` stands for a parse error, `Some(v)` for the parsed value.
 */
module Handler {
  import opened Wrappers
  import opened Jobs
  import opened Channels

  const MethodPost := "POST"
  const StatusCreated := 201
  const StatusBadRequest := 400
  const StatusMethodNotAllowed := 405
  /** Capacity of the job queue the server creates. */
  const MaxQueueSizeJobs: nat := 20

  /** What the client sees: the status code, the error text, and the `Allow` header if set. */
  datatype Response = Response(status: int, message: string, allow: Option<string>)

  /** The response together with the job the request sends to the queue, if any. */
  datatype Outcome = Outcome(response: Response, enqueued: Option<Job>)

  /** A request that passes every check. */
  predicate IsAdmissible(requestMethod: string, delay: Option<Int64>, value: Option<Int64>, name: string)
  {
    requestMethod == MethodPost && delay.Some? && value.Some? && name != ""
  }

  /** The decision `RequestHandler` takes, as a value. */
  function Handle(requestMethod: string, delay: Option<Int64>, value: Option<Int64>, name: string): (o: Outcome)
    ensures o.enqueued.Some? <==> IsAdmissible(requestMethod, delay, value, name)
    ensures o.enqueued.Some? ==>
              o.enqueued.value == Job(name, delay.value, value.value)
              && o.response == Response(StatusCreated, "", None)
    ensures requestMethod != MethodPost ==>
              o == Outcome(Response(StatusMethodNotAllowed, "Method not allowed", Some(MethodPost)), None)
    ensures o.response.status == StatusCreated <==> o.enqueued.Some?
    ensures o.response.allow.Some? <==> requestMethod != MethodPost
  {
    if requestMethod != MethodPost then
      Outcome(Response(StatusMethodNotAllowed, "Method not allowed", Some(MethodPost)), None)
    else if delay.None? then
      Outcome(Response(StatusBadRequest, "Invalid delay", None), None)
    else if value.None? then
      Outcome(Response(StatusBadRequest, "Invalid value", None), None)
    else if name == "" then
      Outcome(Response(StatusBadRequest, "Invalid name", None), None)
    else
      Outcome(Response(StatusCreated, "", None), Some(Job(name, delay.value, value.value)))
  }

  /** A delay that fails to parse is reported first, whatever the value and the name are. */
  lemma InvalidDelayFirst(delay: Option<Int64>, value: Option<Int64>, name: string)
    requires delay.None?
    ensures Handle(MethodPost, delay, value, name)
            == Outcome(Response(StatusBadRequest, "Invalid delay", None), None)
  {
  }

  /** With a valid delay, a value that fails to parse is reported, whatever the name is. */
  lemma InvalidValueSecond(delay: Option<Int64>, value: Option<Int64>, name: string)
    requires delay.Some? && value.None?
    ensures Handle(MethodPost, delay, value, name)
            == Outcome(Response(StatusBadRequest, "Invalid value", None), None)
  {
  }

  /** With both numbers valid, an empty name is reported. */
  lemma InvalidNameThird(delay: Option<Int64>, value: Option<Int64>)
    requires delay.Some? && value.Some?
    ensures Handle(MethodPost, delay, value, "")
            == Outcome(Response(StatusBadRequest, "Invalid name", None), None)
  {
  }

  /** Every rejection of a POST is a 400 that names exactly the first field that failed. */
  lemma RejectionNamesFirstFailure(delay: Option<Int64>, value: Option<Int64>, name: string)
    requires !IsAdmissible(MethodPost, delay, value, name)
    ensures Handle(MethodPost, delay, value, name).response.status == StatusBadRequest
    ensures Handle(MethodPost, delay, value, name).response.message
            == if delay.None? then "Invalid delay"
               else if value.None? then "Invalid value"
               else "Invalid name"
  {
  }

  /**
   * `RequestHandler`. A job is sent to `jobQueue` only on the success path,
   * at its end, and nothing is sent otherwise. The send blocks in Go until
   * the queue has room; here an admissible request needs that room.
   */
  method RequestHandler(jobQueue: Channel<Job>, requestMethod: string,
                        delay: Option<Int64>, value: Option<Int64>, name: string)
    returns (response: Response)
    requires jobQueue.Valid()
    requires IsAdmissible(requestMethod, delay, value, name) ==> |jobQueue.buffer| < jobQueue.capacity
    modifies jobQueue
    ensures jobQueue.Valid()
    ensures response == Handle(requestMethod, delay, value, name).response
    ensures jobQueue.buffer
            == match Handle(requestMethod, delay, value, name).enqueued
               case Some(job) => old(jobQueue.buffer) + [job]
               case None => old(jobQueue.buffer)
    ensures |jobQueue.buffer| == |old(jobQueue.buffer)| + (if response.status == StatusCreated then 1 else 0)
  {
    if requestMethod == MethodPost {
      if delay.None? {
        return Response(StatusBadRequest, "Invalid delay", None);
      }
      if value.None? {
        return Response(StatusBadRequest, "Invalid value", None);
      }
      if name == "" {
        return Response(StatusBadRequest, "Invalid name", None);
      }
      var job := Job(name, delay.value, value.value);
      jobQueue.Send(job);
      response := Response(StatusCreated, "", None);
    } else {
      response := Response(StatusMethodNotAllowed, "Method not allowed", Some(MethodPost));
    }
  }

  /** The buffered job queue the server creates, with room for 20 jobs. */
  method NewJobQueue() returns (jobQueue: Channel<Job>)
    ensures fresh(jobQueue) && jobQueue.Valid()
    ensures jobQueue.capacity == MaxQueueSizeJobs && jobQueue.buffer == []
  {
    jobQueue := new Channel<Job>(MaxQueueSizeJobs);
  }
}

/** The deployer's shared state and the effect on it of each step taken under its mutex. */
module WorkQueue {
  import opened Slices

  type Key = string

  /** Go function values and option bags: passed around and never inspected, so only their identity matters. */
  type Handler = nat
  type Metric = nat
  type Options = nat

  datatype Payload = Payload(handler: Handler, metric: Metric, options: Options)

  datatype Request = Request(key: Key, payload: Payload)

  /** A handler's returned error, nil included. */
  datatype Outcome = Succeeded | Failed(error: string)

  datatype Queue = Queue(
    dirty: seq<Key>,
    inProgress: seq<Key>,
    jobQueue: seq<Request>,
    results: map<Key, Outcome>,
    features: set<string>)

  const EMPTY := Queue([], [], [], map[], {})

  function KeysOf(jobs: seq<Request>): (keys: seq<Key>)
    ensures |keys| == |jobs|
  {
    seq(|jobs|, i requires 0 <= i < |jobs| => jobs[i].key)
  }

  function DropFirstJob(jobs: seq<Request>, key: Key): seq<Request> {
    if key in KeysOf(jobs) then RemoveAt(jobs, IndexOf(KeysOf(jobs), key)) else jobs
  }

  /** Every queued entry for the key gets the new handler, metric and options; order is kept. */
  function Repayload(jobs: seq<Request>, key: Key, payload: Payload): (r: seq<Request>)
    ensures |r| == |jobs|
  {
    seq(|jobs|, i requires 0 <= i < |jobs| =>
      if jobs[i].key == key then Request(key, payload) else jobs[i])
  }

  function Registered(q: Queue, feature: string): Queue {
    q.(features := q.features + {feature})
  }

  function Deployed(q: Queue, key: Key, feature: string, payload: Payload): Queue {
    if feature !in q.features then q
    else if key in q.dirty then q.(jobQueue := Repayload(q.jobQueue, key, payload))
    else
      var marked := q.(results := q.results - {key}, dirty := q.dirty + [key]);
      if key in q.inProgress then marked
      else marked.(jobQueue := q.jobQueue + [Request(key, payload)])
  }

  function Taken(q: Queue): Queue
    requires q.jobQueue != []
  {
    var key := q.jobQueue[0].key;
    q.(jobQueue := q.jobQueue[1..],
       inProgress := q.inProgress + [key],
       dirty := DropSwap(q.dirty, key))
  }

  function Stored(q: Queue, job: Request, outcome: Outcome): Queue {
    var done := q.(inProgress := DropSwap(q.inProgress, job.key));
    if job.key in q.dirty then
      done.(jobQueue := q.jobQueue + [job],
            dirty := DropSwap(q.dirty, job.key),
            results := q.results - {job.key})
    else
      done.(results := q.results[job.key := outcome])
  }

  /** Reading a stored result also forgets it. */
  function Consumed(q: Queue, key: Key): Queue {
    q.(results := q.results - {key})
  }

  function CleanedUp(q: Queue, key: Key): Queue {
    q.(dirty := DropFirst(q.dirty, key),
       jobQueue := DropFirstJob(q.jobQueue, key),
       results := q.results - {key})
  }

  datatype Status = DeployedStatus | InProgressStatus | FailedStatus(error: string) | RemovedStatus | UnavailableStatus

  /** What GetResult answers, given whether the request was for a cleanup. */
  function StatusOf(q: Queue, key: Key, cleanup: bool): Status {
    if key in q.results then
      if q.results[key].Failed? then FailedStatus(q.results[key].error)
      else if cleanup then RemovedStatus else DeployedStatus
    else if key in q.inProgress || key in KeysOf(q.jobQueue) then InProgressStatus
    else UnavailableStatus
  }

  predicate Queued(jobs: seq<Request>, key: Key) {
    exists j :: 0 <= j < |jobs| && jobs[j].key == key
  }

  lemma QueuedIsInKeys(jobs: seq<Request>, key: Key)
    ensures Queued(jobs, key) <==> key in KeysOf(jobs)
  {
    forall j | 0 <= j < |jobs| ensures KeysOf(jobs)[j] == jobs[j].key {
    }
  }

  lemma KeysOfAppend(jobs: seq<Request>, job: Request)
    ensures KeysOf(jobs + [job]) == KeysOf(jobs) + [job.key]
  {
  }

  lemma KeysOfTail(jobs: seq<Request>)
    requires jobs != []
    ensures KeysOf(jobs) == [jobs[0].key] + KeysOf(jobs[1..])
  {
  }

  lemma KeysOfRepayload(jobs: seq<Request>, key: Key, payload: Payload)
    ensures KeysOf(Repayload(jobs, key, payload)) == KeysOf(jobs)
  {
  }

  lemma KeysOfDropFirstJob(jobs: seq<Request>, key: Key)
    ensures KeysOf(DropFirstJob(jobs, key)) == DropFirst(KeysOf(jobs), key)
  {
  }
}

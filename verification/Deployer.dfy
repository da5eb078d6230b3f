/**
 * The deployer object: slices and maps updated in place, one method per critical section.
 * Each method is tied to the step function of WorkQueue that the run properties are about.
 */
module Deployer {
  import opened Outcomes
  import opened Slices
  import opened WorkQueue
  import opened RequestKey

  datatype DeployError = FeatureNotRegistered | FeatureAlreadyRegistered

  /** What a handler is called with; the cluster and feature are read back from the request's key. */
  datatype HandlerArgs = HandlerArgs(
    namespace: string, name: string, applicant: string, feature: string, clusterType: string, options: Options)

  function ArgsFor(id: RequestId, options: Options): HandlerArgs {
    HandlerArgs(id.namespace, id.name, id.applicant, id.feature, id.clusterType, options)
  }

  /** What a worker reads back from a key whose cleanup flag can be read. */
  function ArgsFromKey(key: Key, options: Options): HandlerArgs
    requires GetIsCleanupFromKey(key).Ok?
  {
    var cluster, request := GetClusterFromKey(key).value, GetApplicantAndFeatureFromKey(key).value;
    HandlerArgs(cluster.0, cluster.1, request.0, request.1, GetClusterTypeFromKey(key).value, options)
  }

  /** A handler gets the very fields its request was deployed with if and only if they are unambiguous. */
  lemma HandlerGetsTheRequest(id: RequestId, options: Options)
    ensures
      (GetIsCleanupFromKey(GetKey(id)) == Ok(id.cleanup) && ArgsFromKey(GetKey(id), options) == ArgsFor(id, options))
      <==> UnambiguousId(id)
    ensures UnambiguousId(id) ==>
      var args := ArgsFromKey(GetKey(id), options);
      && args.namespace == id.namespace && args.name == id.name && args.clusterType == id.clusterType
      && args.applicant == id.applicant && args.feature == id.feature && args.options == options
  {
    KeyRoundTrip(id);
  }

  function KeyErrorText(e: KeyError, key: Key): string {
    if e.Malformed? then "key: " + key + " is malformed" else "invalid syntax"
  }

  /** removeFromSlice, as it assigns: overwrite, then shorten. */
  method RemoveFromSlice(s: seq<Key>, i: nat) returns (r: seq<Key>)
    requires i < |s|
    ensures r == SwapRemove(s, i)
    ensures multiset(r) == multiset(s) - multiset{s[i]}
  {
    r := s[i := s[|s| - 1]];
    r := r[..|r| - 1];
    SwapRemoveMultiset(s, i);
  }

  class Deployer {
    var dirty: seq<Key>
    var inProgress: seq<Key>
    var jobQueue: seq<Request>
    var results: map<Key, Outcome>
    var features: set<string>

    function Snapshot(): Queue
      reads this
    {
      Queue(dirty, inProgress, jobQueue, results, features)
    }

    /** startWorkloadWorkers, before any worker has run. */
    constructor ()
      ensures Snapshot() == EMPTY
    {
      dirty, inProgress, jobQueue, results, features := [], [], [], map[], {};
    }

    method RegisterFeatureID(feature: string) returns (r: Result<(), DeployError>)
      modifies this
      ensures r.Err? <==> feature in old(features)
      ensures features == old(features) + {feature}
      ensures Snapshot() == Registered(old(Snapshot()), feature)
    {
      if feature in features {
        return Err(FeatureAlreadyRegistered);
      }
      features := features + {feature};
      return Ok(());
    }

    method Deploy(id: RequestId, payload: Payload) returns (r: Result<(), DeployError>)
      modifies this
      ensures r.Err? <==> id.feature !in old(features)
      ensures Snapshot() == Deployed(old(Snapshot()), GetKey(id), id.feature, payload)
      ensures r.Err? ==> Snapshot() == old(Snapshot())
      ensures unchanged(`inProgress) && unchanged(`features)
      ensures r.Ok? && GetKey(id) !in old(dirty) ==>
        && dirty == old(dirty) + [GetKey(id)] && results == old(results) - {GetKey(id)}
        && jobQueue == old(jobQueue) + if GetKey(id) in old(inProgress) then [] else [Request(GetKey(id), payload)]
      ensures r.Ok? && GetKey(id) in old(dirty) ==>
        && unchanged(`dirty) && unchanged(`results) && |jobQueue| == |old(jobQueue)|
        && forall j :: 0 <= j < |jobQueue| ==>
             jobQueue[j] ==
               if old(jobQueue)[j].key == GetKey(id) then Request(GetKey(id), payload) else old(jobQueue)[j]
    {
      var key := GetKey(id);
      if id.feature !in features {
        return Err(FeatureNotRegistered);
      }
      for i := 0 to |dirty|
        invariant key !in dirty[..i]
        invariant unchanged(this)
      {
        if dirty[i] == key {
          UpdateJobQueue(key, payload);
          return Ok(());
        }
      }
      results := results - {key};
      dirty := dirty + [key];
      for i := 0 to |inProgress|
        invariant key !in inProgress[..i]
        invariant results == old(results) - {key} && dirty == old(dirty) + [key]
        invariant unchanged(`inProgress) && unchanged(`jobQueue) && unchanged(`features)
      {
        if inProgress[i] == key {
          return Ok(());
        }
      }
      jobQueue := jobQueue + [Request(key, payload)];
      return Ok(());
    }

    method UpdateJobQueue(key: Key, payload: Payload)
      modifies `jobQueue
      ensures jobQueue == Repayload(old(jobQueue), key, payload)
    {
      for i := 0 to |jobQueue|
        invariant |jobQueue| == |old(jobQueue)|
        invariant jobQueue[..i] == Repayload(old(jobQueue), key, payload)[..i]
        invariant jobQueue[i..] == old(jobQueue)[i..]
      {
        assert jobQueue[i] == jobQueue[i..][0] == old(jobQueue)[i..][0];
        if jobQueue[i].key == key {
          jobQueue := jobQueue[i := Request(key, payload)];
        }
      }
    }

    /** A worker's take: nothing happens on an empty queue. */
    method TakeRequest() returns (params: Option<Request>)
      modifies this
      ensures params == if old(jobQueue) == [] then None else Some(old(jobQueue)[0])
      ensures Snapshot() == if old(jobQueue) == [] then old(Snapshot()) else Taken(old(Snapshot()))
      ensures unchanged(`results) && unchanged(`features)
      ensures params.Some? ==>
        jobQueue == old(jobQueue)[1..] && inProgress == old(inProgress) + [params.value.key]
    {
      params := None;
      if |jobQueue| > 0 {
        var job := jobQueue[0];
        params := Some(job);
        jobQueue := jobQueue[1..];
        inProgress := inProgress + [job.key];
        for i := 0 to |dirty|
          invariant job.key !in dirty[..i]
          invariant dirty == old(dirty)
          invariant jobQueue == old(jobQueue)[1..] && inProgress == old(inProgress) + [job.key]
          invariant unchanged(`results) && unchanged(`features)
        {
          if dirty[i] == job.key {
            IndexOfIs(dirty, job.key, i);
            dirty := RemoveFromSlice(dirty, i);
            return;
          }
        }
      }
    }

    method StoreResult(job: Request, outcome: Outcome)
      modifies this
      ensures Snapshot() == Stored(old(Snapshot()), job, outcome)
      ensures unchanged(`features)
      ensures job.key in old(dirty) ==> jobQueue == old(jobQueue) + [job] && results == old(results) - {job.key}
      ensures job.key !in old(dirty) ==> unchanged(`jobQueue) && results == old(results)[job.key := outcome]
    {
      RemoveFromInProgress(job.key);
      for i := 0 to |dirty|
        invariant job.key !in dirty[..i]
        invariant inProgress == DropSwap(old(inProgress), job.key)
        invariant unchanged(`dirty) && unchanged(`jobQueue) && unchanged(`results) && unchanged(`features)
      {
        if dirty[i] == job.key {
          jobQueue := jobQueue + [Request(dirty[i], job.payload)];
          IndexOfIs(dirty, job.key, i);
          dirty := RemoveFromSlice(dirty, i);
          results := results - {job.key};
          return;
        }
      }
      results := results[job.key := outcome];
    }

    /** A worker's turn on what it took, up to its storing the outcome. A key whose cleanup flag cannot be read
        back fails without its handler. */
    method ProcessRequest(job: Request, handler: HandlerArgs -> Outcome)
      modifies this
      ensures Snapshot() == Stored(old(Snapshot()), job,
        match GetIsCleanupFromKey(job.key)
        case Err(e) => Failed(KeyErrorText(e, job.key))
        case Ok(_) => handler(ArgsFromKey(job.key, job.payload.options)))
    {
      var cluster := GetClusterFromKey(job.key);
      var clusterType := GetClusterTypeFromKey(job.key);
      var request := GetApplicantAndFeatureFromKey(job.key);
      var cleanup := GetIsCleanupFromKey(job.key);
      if cleanup.Err? {
        StoreResult(job, Failed(KeyErrorText(cleanup.error, job.key)));
      } else {
        var args := HandlerArgs(cluster.value.0, cluster.value.1, request.value.0, request.value.1,
                                clusterType.value, job.payload.options);
        StoreResult(job, handler(args));
      }
    }

    method RemoveFromInProgress(key: Key)
      modifies `inProgress
      ensures inProgress == DropSwap(old(inProgress), key)
    {
      for i := 0 to |inProgress|
        invariant key !in inProgress[..i]
        invariant unchanged(this)
      {
        if inProgress[i] == key {
          IndexOfIs(inProgress, key, i);
          inProgress := RemoveFromSlice(inProgress, i);
          return;
        }
      }
    }

    method GetResult(id: RequestId) returns (status: Status)
      modifies this
      ensures status == StatusOf(old(Snapshot()), GetKey(id), id.cleanup)
      ensures Snapshot() == Consumed(old(Snapshot()), GetKey(id))
      ensures status == DeployedStatus <==>
        GetKey(id) in old(results) && old(results)[GetKey(id)] == Succeeded && !id.cleanup
      ensures status == RemovedStatus <==>
        GetKey(id) in old(results) && old(results)[GetKey(id)] == Succeeded && id.cleanup
      ensures forall e :: status == FailedStatus(e) <==>
        GetKey(id) in old(results) && old(results)[GetKey(id)] == Failed(e)
      ensures status == InProgressStatus <==>
        GetKey(id) !in old(results) && (GetKey(id) in old(inProgress) || Queued(old(jobQueue), GetKey(id)))
      ensures status == UnavailableStatus <==>
        GetKey(id) !in old(results) && GetKey(id) !in old(inProgress) && !Queued(old(jobQueue), GetKey(id))
      ensures results == old(results) - {GetKey(id)}
      ensures unchanged(`dirty) && unchanged(`inProgress) && unchanged(`jobQueue) && unchanged(`features)
    {
      var key := GetKey(id);
      QueuedIsInKeys(jobQueue, key);
      if key in results {
        var outcome := results[key];
        results := results - {key};
        if outcome.Failed? {
          return FailedStatus(outcome.error);
        }
        return if id.cleanup then RemovedStatus else DeployedStatus;
      }
      assert results - {key} == results;
      var running := IsInProgress(id);
      if running {
        return InProgressStatus;
      }
      for i := 0 to |jobQueue|
        invariant key !in KeysOf(jobQueue)[..i]
      {
        assert KeysOf(jobQueue)[i] == jobQueue[i].key;
        if jobQueue[i].key == key {
          return InProgressStatus;
        }
      }
      return UnavailableStatus;
    }

    method IsInProgress(id: RequestId) returns (running: bool)
      ensures running <==> GetKey(id) in inProgress
    {
      var key := GetKey(id);
      for i := 0 to |inProgress|
        invariant key !in inProgress[..i]
      {
        if inProgress[i] == key {
          return true;
        }
      }
      return false;
    }

    method CleanupEntries(id: RequestId)
      modifies this
      ensures Snapshot() == CleanedUp(old(Snapshot()), GetKey(id))
      ensures results == old(results) - {GetKey(id)} && unchanged(`inProgress) && unchanged(`features)
    {
      var key := GetKey(id);
      RemoveFromDirty(key);
      RemoveFromJobQueue(key);
      results := results - {key};
    }

    method RemoveFromDirty(key: Key)
      modifies `dirty
      ensures dirty == DropFirst(old(dirty), key)
    {
      for i := 0 to |dirty|
        invariant key !in dirty[..i]
        invariant unchanged(this)
      {
        if dirty[i] == key {
          IndexOfIs(dirty, key, i);
          dirty := dirty[..i] + dirty[i + 1..];
          return;
        }
      }
    }

    method RemoveFromJobQueue(key: Key)
      modifies `jobQueue
      ensures jobQueue == DropFirstJob(old(jobQueue), key)
    {
      for i := 0 to |jobQueue|
        invariant key !in KeysOf(jobQueue)[..i]
        invariant unchanged(this)
      {
        assert KeysOf(jobQueue)[i] == jobQueue[i].key;
        if jobQueue[i].key == key {
          IndexOfIs(KeysOf(jobQueue), key, i);
          jobQueue := jobQueue[..i] + jobQueue[i + 1..];
          return;
        }
      }
    }
  }
}

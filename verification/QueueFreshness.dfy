/** Which handler invocation a result comes from, and which Deploy a queued entry carries. */
module QueueFreshness {
  import opened Outcomes
  import opened WorkQueue
  import opened QueueRuns
  import opened QueueSafety

  /** When the latest accepted Deploy(k) happened that no Cleanup(k) has cancelled since; 0 if there is none.
      Times are positions in the run, counted from 1. */
  function LastDeploy(r: Run, k: Key): nat
    requires Legal(r)
  {
    match r
    case Start(_) => 0
    case Then(b, e) =>
      if Accepts(After(b), e, k) then Length(r)
      else if e == Cleanup(k) then 0
      else LastDeploy(b, k)
  }

  /** When the worker took what it holds now. */
  function TakenAt(r: Run, worker: nat): nat
    requires Legal(r)
  {
    match r
    case Start(_) => 0
    case Then(b, e) =>
      if e == Take(worker) && Works(After(b), e) then Length(r) else TakenAt(b, worker)
  }

  /** The step stores a result for k rather than requeueing it. */
  predicate Stores(w: World, e: Event, k: Key)
    requires Enabled(w, e)
  {
    e.Store? && w.workers[e.worker].value.key == k && k !in w.queue.dirty
  }

  /** When the invocation was taken whose result is stored for k. */
  function StoredFrom(r: Run, k: Key): nat
    requires Legal(r)
  {
    match r
    case Start(_) => 0
    case Then(b, e) =>
      if Stores(After(b), e, k) then TakenAt(b, e.worker) else StoredFrom(b, k)
  }

  /** The invocation worker i is running began with the Take that TakenAt names: i took the front
      of the queue there, and has held that request ever since. */
  lemma {:induction false} WorkerProvenance(r: Run, i: nat) returns (p: Run)
    requires Legal(r) && Busy(After(r), i)
    ensures Prefix(Then(p, Take(i)), r) && Legal(Then(p, Take(i)))
    ensures Length(p) + 1 == TakenAt(r, i) <= Length(r)
    ensures After(p).queue.jobQueue != [] && After(p).queue.jobQueue[0] == After(r).workers[i].value
    ensures forall m :: Prefix(Then(p, Take(i)), m) && Prefix(m, r) && Legal(m) ==>
      Busy(After(m), i) && After(m).workers[i] == After(r).workers[i]
  {
    var b, e := r.before, r.event;
    if e == Take(i) && Works(After(b), e) {
      p := b;
      forall m | Prefix(r, m) && Prefix(m, r) ensures m == r {
        PrefixAntisymmetric(r, m);
      }
    } else {
      p := WorkerProvenance(b, i);
    }
  }

  lemma {:induction false} PrefixShorter(p: Run, r: Run)
    requires Prefix(p, r)
    ensures Length(p) <= Length(r)
  {
    if p != r {
      PrefixShorter(p, r.before);
    }
  }

  lemma PrefixAntisymmetric(p: Run, r: Run)
    requires Prefix(p, r) && Prefix(r, p)
    ensures p == r
  {
    PrefixShorter(p, r);
    PrefixShorter(r, p);
    if p != r {
      PrefixShorter(p, r.before);
    }
  }

  lemma ResultKept(w: World, e: Event, k: Key)
    requires Enabled(w, e) && k in Step(w, e).queue.results && !Stores(w, e, k)
    ensures k in w.queue.results && w.queue.results[k] == Step(w, e).queue.results[k]
  {
  }

  /** A stored result is what some worker returned for k in an invocation taken at StoredFrom. */
  lemma {:induction false} ResultProvenance(r: Run, k: Key) returns (p: Run, s: Run, i: nat)
    requires Legal(r) && k in After(r).queue.results
    ensures Prefix(Then(s, Store(i, After(r).queue.results[k])), r)
    ensures Legal(s) && Busy(After(s), i) && After(s).workers[i].value.key == k
    ensures Prefix(Then(p, Take(i)), s) && Legal(p) && Length(p) + 1 == StoredFrom(r, k)
    ensures After(p).queue.jobQueue != [] && After(p).queue.jobQueue[0] == After(s).workers[i].value
  {
    var b, e := r.before, r.event;
    if Stores(After(b), e, k) {
      i, s := e.worker, b;
      p := WorkerProvenance(b, i);
    } else {
      ResultKept(After(b), e, k);
      p, s, i := ResultProvenance(b, k);
    }
  }

  /** What a client may conclude from an answer: Deployed or Removed means that the worker whose outcome was stored
      for the key returned success, Failed that it returned that error, in the invocation the result is traced to. */
  lemma AnswersComeFromHandlers(r: Run, k: Key, cleanup: bool) returns (s: Run, i: nat)
    requires Legal(r)
    requires StatusOf(After(r).queue, k, cleanup) in {DeployedStatus, RemovedStatus}
             || StatusOf(After(r).queue, k, cleanup).FailedStatus?
    ensures Legal(s) && Busy(After(s), i) && After(s).workers[i].value.key == k
    ensures StatusOf(After(r).queue, k, cleanup).FailedStatus? ==>
      Prefix(Then(s, Store(i, Failed(StatusOf(After(r).queue, k, cleanup).error))), r)
    ensures !StatusOf(After(r).queue, k, cleanup).FailedStatus? ==> Prefix(Then(s, Store(i, Succeeded)), r)
    ensures StatusOf(After(r).queue, k, cleanup).RemovedStatus? ==> cleanup
    ensures StatusOf(After(r).queue, k, cleanup).DeployedStatus? ==> !cleanup
  {
    var p;
    p, s, i := ResultProvenance(r, k);
  }

  lemma {:induction false} LastDeployBound(r: Run, k: Key)
    requires Legal(r)
    ensures LastDeploy(r, k) <= Length(r)
  {
    if r.Then? {
      LastDeployBound(r.before, k);
    }
  }

  /** Every invocation under way for k either began after the latest Deploy(k), or k is dirty,
      so that its result will be thrown away. */
  ghost predicate RunningFresh(r: Run, k: Key)
    requires Legal(r)
  {
    forall i: nat :: Busy(After(r), i) && After(r).workers[i].value.key == k ==>
      TakenAt(r, i) > LastDeploy(r, k) || k in After(r).queue.dirty
  }

  lemma {:induction false} RunningStaysFresh(r: Run, k: Key)
    requires Legal(r) && Doubles(r, k) == 0
    ensures RunningFresh(r, k)
  {
    if r.Then? {
      var b, e := r.before, r.event;
      RunningStaysFresh(b, k);
      AlwaysConsistent(b);
      StepView(After(b), e, k);
      forall i: nat | Busy(After(r), i) && After(r).workers[i].value.key == k && k !in After(r).queue.dirty
        ensures TakenAt(r, i) > LastDeploy(r, k)
      {
        LastDeployBound(b, k);
        var _ := WorkerProvenance(r, i);
        if !(e == Take(i) && Works(After(b), e)) {
          StillFresh(r, k, i);
        }
      }
    }
  }

  /** A worker that keeps its request keeps being fresh, unless k became dirty. */
  lemma StillFresh(r: Run, k: Key, i: nat)
    requires r.Then? && Legal(r) && Doubles(r, k) == 0 && RunningFresh(r.before, k)
    requires Busy(After(r), i) && After(r).workers[i].value.key == k && k !in After(r).queue.dirty
    requires !(r.event == Take(i) && Works(After(r.before), r.event))
    requires TakenAt(r, i) > 0
    ensures TakenAt(r, i) > LastDeploy(r, k)
  {
    var b, e := r.before, r.event;
    AlwaysConsistent(b);
    StepView(After(b), e, k);
    assert Busy(After(b), i) && After(b).workers[i] == After(r).workers[i];
    if e.Take? && Works(After(b), e) && After(b).queue.jobQueue[0].key == k {
      NeverTwiceInParallel(r, k, i, e.worker);
    } else if e.Store? && After(b).workers[e.worker].value.key == k {
      NeverTwiceInParallel(b, k, i, e.worker);
    }
  }

  /** Results are never stale: a stored result comes from an invocation taken after the latest Deploy(k),
      even one that arrived while an earlier invocation was running. */
  lemma {:induction false} ResultsAreFresh(r: Run, k: Key)
    requires Legal(r) && Doubles(r, k) == 0 && k in After(r).queue.results
    ensures StoredFrom(r, k) > LastDeploy(r, k)
  {
    var b, e := r.before, r.event;
    AlwaysConsistent(r);
    assert ViewOk(ViewOf(After(r).queue, k));
    if Stores(After(b), e, k) {
      RunningStaysFresh(b, k);
    } else {
      assert k in After(b).queue.results;
      ResultsAreFresh(b, k);
    }
  }

  /** What the latest accepted Deploy(k) asked for. */
  function LastPayload(r: Run, k: Key): Option<Payload>
    requires Legal(r)
  {
    match r
    case Start(_) => None
    case Then(b, e) => if Accepts(After(b), e, k) then Some(e.payload) else LastPayload(b, k)
  }

  /** What the latest invocation of k was given. */
  function LastTaken(r: Run, k: Key): Option<Payload>
    requires Legal(r)
  {
    match r
    case Start(_) => None
    case Then(b, e) =>
      if e.Take? && Works(After(b), e) && After(b).queue.jobQueue[0].key == k
      then Some(After(b).queue.jobQueue[0].payload)
      else LastTaken(b, k)
  }

  lemma {:induction false} HeldPayload(r: Run, k: Key, i: nat)
    requires Legal(r) && Doubles(r, k) == 0
    requires Busy(After(r), i) && After(r).workers[i].value.key == k
    ensures LastTaken(r, k) == Some(After(r).workers[i].value.payload)
  {
    var b, e := r.before, r.event;
    if e.Take? && Works(After(b), e) && After(b).queue.jobQueue[0].key == k {
      NeverTwiceInParallel(r, k, i, e.worker);
    } else {
      HeldPayload(b, k, i);
    }
  }

  ghost predicate QueuedPayload(r: Run, k: Key)
    requires Legal(r)
  {
    var q := After(r).queue;
    forall j :: 0 <= j < |q.jobQueue| && q.jobQueue[j].key == k ==>
      Some(q.jobQueue[j].payload) == if k in q.dirty then LastPayload(r, k) else LastTaken(r, k)
  }

  lemma KeyAt(jobs: seq<Request>, j: nat)
    requires j < |jobs|
    ensures jobs[j].key in KeysOf(jobs)
  {
    assert KeysOf(jobs)[j] == jobs[j].key;
  }

  /** A queued entry that is still dirty carries the handler and options of the latest Deploy(k);
      one that was requeued carries those of the invocation before it, whatever was asked meanwhile. */
  lemma {:induction false} QueuedEntryPayload(r: Run, k: Key)
    requires Legal(r) && Doubles(r, k) == 0
    ensures QueuedPayload(r, k)
  {
    if r.Then? {
      QueuedEntryPayload(r.before, k);
      match r.event
      case Deploy(_, _, _) => DeployPayload(r, k);
      case Take(_) => TakePayload(r, k);
      case Store(_, _) => StorePayload(r, k);
      case Cleanup(_) => CleanupPayload(r, k);
      case _ =>
    }
  }

  lemma DeployPayload(r: Run, k: Key)
    requires r.Then? && r.event.Deploy? && Legal(r) && Doubles(r, k) == 0 && QueuedPayload(r.before, k)
    ensures QueuedPayload(r, k)
  {
    var b, e := r.before, r.event;
    var q := After(b).queue;
    AlwaysConsistent(b);
    CopiesBounded(b, k);
    ViewMembers(q, k);
    assert ViewOk(ViewOf(q, k));
    forall j | 0 <= j < |q.jobQueue| && q.jobQueue[j].key == k ensures k in KeysOf(q.jobQueue) {
      KeyAt(q.jobQueue, j);
    }
  }

  lemma TakePayload(r: Run, k: Key)
    requires r.Then? && r.event.Take? && Legal(r) && Doubles(r, k) == 0 && QueuedPayload(r.before, k)
    ensures QueuedPayload(r, k)
  {
    var q, q' := After(r.before).queue, After(r).queue;
    AlwaysConsistent(r.before);
    CopiesBounded(r.before, k);
    StepView(After(r.before), r.event, k);
    ViewMembers(q', k);
    forall j | 0 <= j < |q'.jobQueue| && q'.jobQueue[j].key == k ensures k in KeysOf(q'.jobQueue) {
      KeyAt(q'.jobQueue, j);
    }
  }

  lemma StorePayload(r: Run, k: Key)
    requires r.Then? && r.event.Store? && Legal(r) && Doubles(r, k) == 0 && QueuedPayload(r.before, k)
    ensures QueuedPayload(r, k)
  {
    var b, i := r.before, r.event.worker;
    var q, q' := After(b).queue, After(r).queue;
    AlwaysConsistent(b);
    CopiesBounded(b, k);
    StepView(After(b), r.event, k);
    ViewMembers(q, k);
    forall j | 0 <= j < |q.jobQueue| && q.jobQueue[j].key == k ensures k in KeysOf(q.jobQueue) {
      KeyAt(q.jobQueue, j);
    }
    if After(b).workers[i].value.key == k {
      HeldPayload(b, k, i);
    }
  }

  lemma CleanupPayload(r: Run, k: Key)
    requires r.Then? && r.event.Cleanup? && Legal(r) && Doubles(r, k) == 0 && QueuedPayload(r.before, k)
    ensures QueuedPayload(r, k)
  {
    var q, q' := After(r.before).queue, After(r).queue;
    AlwaysConsistent(r.before);
    CopiesBounded(r.before, k);
    StepView(After(r.before), r.event, k);
    ViewMembers(q', k);
    forall j | 0 <= j < |q'.jobQueue| && q'.jobQueue[j].key == k
      ensures k in KeysOf(q'.jobQueue) && q'.jobQueue[j] in q.jobQueue
    {
      KeyAt(q'.jobQueue, j);
    }
  }
}

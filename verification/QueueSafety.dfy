/** What every step of the work queue keeps, over every run. */
module QueueSafety {
  import opened Outcomes
  import opened Slices
  import opened WorkQueue
  import opened QueueRuns

  /** The whole queue as one key sees it. */
  datatype View = View(waiting: nat, running: nat, dirty: bool, hasResult: bool)

  function ViewOf(q: Queue, k: Key): View {
    View(multiset(KeysOf(q.jobQueue))[k], multiset(q.inProgress)[k], k in q.dirty, k in q.results)
  }

  lemma ViewMembers(q: Queue, k: Key)
    ensures ViewOf(q, k).waiting > 0 <==> k in KeysOf(q.jobQueue)
    ensures ViewOf(q, k).running > 0 <==> k in q.inProgress
  {
    assert k in multiset(KeysOf(q.jobQueue)) <==> k in KeysOf(q.jobQueue);
    assert k in multiset(q.inProgress) <==> k in q.inProgress;
  }

  lemma DeployView(q: Queue, d: Key, f: string, p: Payload, k: Key)
    ensures ViewOf(Deployed(q, d, f, p), k) ==
      var v := ViewOf(q, k);
      if d != k || f !in q.features || v.dirty then v
      else View(if v.running > 0 then v.waiting else v.waiting + 1, v.running, true, false)
  {
    ViewMembers(q, d);
    KeysOfRepayload(q.jobQueue, d, p);
    KeysOfAppend(q.jobQueue, Request(d, p));
  }

  lemma TakeView(q: Queue, k: Key)
    requires q.jobQueue != [] && NoDuplicates(q.dirty)
    ensures q.jobQueue[0].key == k ==> ViewOf(q, k).waiting > 0
    ensures ViewOf(Taken(q), k) ==
      var v := ViewOf(q, k);
      if q.jobQueue[0].key == k then View(v.waiting - 1, v.running + 1, false, v.hasResult) else v
  {
    var head := q.jobQueue[0].key;
    TakenParts(q, head, k);
    assert multiset(q.inProgress + [head])[k] == multiset(q.inProgress)[k] + if head == k then 1 else 0;
  }

  lemma TakenParts(q: Queue, head: Key, k: Key)
    requires q.jobQueue != [] && q.jobQueue[0].key == head && NoDuplicates(q.dirty)
    ensures multiset(KeysOf(q.jobQueue))[k]
         == multiset(KeysOf(q.jobQueue[1..]))[k] + if head == k then 1 else 0
    ensures k in DropSwap(q.dirty, head) <==> k in q.dirty && k != head
  {
    KeysOfTail(q.jobQueue);
    DropSwapMultiset(q.dirty, head);
    DropLeavesTheRest(q.dirty, DropSwap(q.dirty, head), head);
  }

  lemma StoreView(q: Queue, job: Request, o: Outcome, k: Key)
    requires NoDuplicates(q.dirty) && job.key in q.inProgress
    ensures job.key == k ==> ViewOf(q, k).running > 0
    ensures ViewOf(Stored(q, job, o), k) ==
      var v := ViewOf(q, k);
      if job.key != k then v
      else if v.dirty then View(v.waiting + 1, v.running - 1, false, false)
      else View(v.waiting, v.running - 1, false, true)
  {
    ViewMembers(q, job.key);
    DropSwapCount(q.inProgress, job.key, k);
    if job.key in q.dirty {
      RequeuedParts(q, job, k);
    }
  }

  lemma RequeuedParts(q: Queue, job: Request, k: Key)
    requires NoDuplicates(q.dirty)
    ensures multiset(KeysOf(q.jobQueue + [job]))[k]
         == multiset(KeysOf(q.jobQueue))[k] + if job.key == k then 1 else 0
    ensures k in DropSwap(q.dirty, job.key) <==> k in q.dirty && k != job.key
  {
    KeysOfAppend(q.jobQueue, job);
    DropSwapMultiset(q.dirty, job.key);
    DropLeavesTheRest(q.dirty, DropSwap(q.dirty, job.key), job.key);
  }

  lemma CleanupView(q: Queue, c: Key, k: Key)
    requires NoDuplicates(q.dirty)
    ensures ViewOf(CleanedUp(q, c), k) ==
      var v := ViewOf(q, k);
      if c != k then v
      else View(if v.waiting > 0 then v.waiting - 1 else 0, v.running, false, false)
  {
    DropFirstMultiset(q.dirty, c);
    DropLeavesTheRest(q.dirty, DropFirst(q.dirty, c), c);
    KeysOfDropFirstJob(q.jobQueue, c);
    DropFirstMultiset(KeysOf(q.jobQueue), c);
  }

  /** dirty keys are waiting or running, and have no result. */
  predicate ViewOk(v: View) {
    v.dirty ==> v.waiting + v.running > 0 && !v.hasResult
  }

  /** Holds in every reachable state, double-queue steps included. */
  ghost predicate Consistent(w: World) {
    && NoDuplicates(w.queue.dirty)
    && (forall k :: ViewOk(ViewOf(w.queue, k)))
    && multiset(w.queue.inProgress) == HeldKeys(w.workers)
  }

  lemma HeldIsInProgress(w: World, i: nat)
    requires Consistent(w) && Busy(w, i)
    ensures w.workers[i].value.key in w.queue.inProgress
  {
    HeldKeysMember(w.workers, w.workers[i].value.key);
    assert w.workers[i].value.key in multiset(w.queue.inProgress);
  }

  /** What one step does to one key, given what the worker involved holds. */
  function ViewStep(w: World, e: Event, k: Key): View
    requires Enabled(w, e)
  {
    var v := ViewOf(w.queue, k);
    match e
    case Register(_) => v
    case Deploy(_, _, _) =>
      if !Accepts(w, e, k) || v.dirty then v
      else View(if v.running > 0 then v.waiting else v.waiting + 1, v.running, true, false)
    case Take(_) =>
      if w.queue.jobQueue == [] || w.queue.jobQueue[0].key != k || v.waiting == 0 then v
      else View(v.waiting - 1, v.running + 1, false, v.hasResult)
    case Store(i, _) =>
      if w.workers[i].value.key != k || v.running == 0 then v
      else if v.dirty then View(v.waiting + 1, v.running - 1, false, false)
      else View(v.waiting, v.running - 1, false, true)
    case GetResult(g) => if g == k then v.(hasResult := false) else v
    case Cleanup(c) =>
      if c != k then v
      else View(if v.waiting > 0 then v.waiting - 1 else 0, v.running, false, false)
  }

  lemma TakeStepView(w: World, i: nat, k: Key)
    requires Consistent(w) && Enabled(w, Take(i))
    ensures ViewOf(Step(w, Take(i)).queue, k) == ViewStep(w, Take(i), k)
    ensures w.queue.jobQueue != [] && w.queue.jobQueue[0].key == k ==> ViewOf(w.queue, k).waiting > 0
  {
    if w.queue.jobQueue != [] {
      TakeView(w.queue, k);
    }
  }

  lemma StoreStepView(w: World, i: nat, o: Outcome, k: Key)
    requires Consistent(w) && Enabled(w, Store(i, o))
    ensures ViewOf(Step(w, Store(i, o)).queue, k) == ViewStep(w, Store(i, o), k)
    ensures w.workers[i].value.key == k ==> ViewOf(w.queue, k).running > 0
  {
    HeldIsInProgress(w, i);
    StoreView(w.queue, w.workers[i].value, o, k);
  }

  /** The whole protocol, one key at a time. */
  lemma StepView(w: World, e: Event, k: Key)
    requires Consistent(w) && Enabled(w, e)
    ensures ViewOf(Step(w, e).queue, k) == ViewStep(w, e, k)
    ensures e.Take? && w.queue.jobQueue != [] && w.queue.jobQueue[0].key == k ==> ViewOf(w.queue, k).waiting > 0
    ensures e.Store? && w.workers[e.worker].value.key == k ==> ViewOf(w.queue, k).running > 0
  {
    match e
    case Register(_) =>
    case Deploy(d, f, p) => DeployView(w.queue, d, f, p, k);
    case Take(i) => TakeStepView(w, i, k);
    case Store(i, o) => StoreStepView(w, i, o, k);
    case GetResult(_) =>
    case Cleanup(c) => CleanupView(w.queue, c, k);
  }

  lemma DirtyStaysDistinct(w: World, e: Event)
    requires Consistent(w) && Enabled(w, e)
    ensures NoDuplicates(Step(w, e).queue.dirty)
  {
    var dirty := w.queue.dirty;
    match e
    case Take(_) =>
      if w.queue.jobQueue != [] {
        var k := w.queue.jobQueue[0].key;
        DropSwapMultiset(dirty, k);
        DropLeavesTheRest(dirty, DropSwap(dirty, k), k);
      }
    case Store(i, o) =>
      var k := w.workers[i].value.key;
      DropSwapMultiset(dirty, k);
      DropLeavesTheRest(dirty, DropSwap(dirty, k), k);
    case Cleanup(k) =>
      DropFirstMultiset(dirty, k);
      DropLeavesTheRest(dirty, DropFirst(dirty, k), k);
    case _ =>
  }

  lemma TakeStaysHeld(w: World, i: nat)
    requires Consistent(w) && Enabled(w, Take(i)) && w.queue.jobQueue != []
    ensures multiset(w.queue.inProgress + [w.queue.jobQueue[0].key])
         == HeldKeys(w.workers[i := Some(w.queue.jobQueue[0])])
  {
    HeldKeysUpdate(w.workers, i, w.queue.jobQueue[0]);
    assert w.workers[i := None] == w.workers;
  }

  lemma StoreStaysHeld(w: World, i: nat)
    requires Consistent(w) && Busy(w, i)
    ensures multiset(DropSwap(w.queue.inProgress, w.workers[i].value.key)) == HeldKeys(w.workers[i := None])
  {
    var job := w.workers[i].value;
    HeldKeysUpdate(w.workers, i, job);
    assert w.workers[i := Some(job)] == w.workers;
    DropSwapBalance(w.queue.inProgress, job.key, HeldKeys(w.workers[i := None]));
  }

  lemma InProgressStaysHeld(w: World, e: Event)
    requires Consistent(w) && Enabled(w, e)
    ensures multiset(Step(w, e).queue.inProgress) == HeldKeys(Step(w, e).workers)
  {
    match e
    case Take(i) =>
      if w.queue.jobQueue != [] {
        TakeStaysHeld(w, i);
      }
    case Store(i, o) => StoreStaysHeld(w, i);
    case _ =>
  }

  /** In every run dirty has no duplicates, names only waiting or running keys without a result,
      and inProgress is exactly what the workers hold. */
  lemma {:induction false} AlwaysConsistent(r: Run)
    requires Legal(r)
    ensures Consistent(After(r))
  {
    match r
    case Start(n) =>
      HeldKeysIdle(n);
    case Then(b, e) =>
      AlwaysConsistent(b);
      DirtyStaysDistinct(After(b), e);
      InProgressStaysHeld(After(b), e);
      forall k ensures ViewOk(ViewOf(After(r).queue, k)) {
        assert ViewOk(ViewOf(After(b).queue, k));
        StepView(After(b), e, k);
      }
  }

  /** The same in terms of the four containers. */
  lemma DirtyIsPending(r: Run, k: Key)
    requires Legal(r) && k in After(r).queue.dirty
    ensures k in KeysOf(After(r).queue.jobQueue) || k in After(r).queue.inProgress
    ensures k !in After(r).queue.results
  {
    AlwaysConsistent(r);
    ViewMembers(After(r).queue, k);
    assert ViewOk(ViewOf(After(r).queue, k));
  }

  /** What IsInProgress answers is what the workers are doing. */
  lemma InProgressMeansRunning(r: Run, k: Key)
    requires Legal(r)
    ensures k in After(r).queue.inProgress
       <==> exists i: nat :: Busy(After(r), i) && After(r).workers[i].value.key == k
  {
    AlwaysConsistent(r);
    HeldKeysMember(After(r).workers, k);
    ViewMembers(After(r).queue, k);
    if k in HeldKeys(After(r).workers) {
      var i :| 0 <= i < |After(r).workers| && After(r).workers[i].Some? && After(r).workers[i].value.key == k;
      assert Busy(After(r), i);
    }
  }

  /** Only an accepted Deploy of a key that is neither dirty nor running adds a copy of it;
      every other step keeps or drops copies. */
  lemma CopiesStep(w: World, e: Event, k: Key)
    requires Consistent(w) && Enabled(w, e)
    ensures Copies(Step(w, e), k) <= Copies(w, k) +
      if Accepts(w, e, k) && k !in w.queue.dirty && k !in w.queue.inProgress then 1 else 0
    ensures DoubleQueues(w, e, k) ==> Copies(Step(w, e), k) >= 2
    ensures !DoubleQueues(w, e, k) && Accepts(w, e, k) && k !in w.queue.dirty && k !in w.queue.inProgress
        ==> Copies(w, k) == 0
  {
    StepView(w, e, k);
    ViewMembers(w.queue, k);
  }

  /** The form in which "never processed more than once in parallel" is true of this code. */
  lemma {:induction false} CopiesBounded(r: Run, k: Key)
    requires Legal(r)
    ensures Copies(After(r), k) <= 1 + Doubles(r, k)
  {
    match r
    case Start(_) =>
      assert KeysOf([]) == [];
    case Then(b, e) =>
      CopiesBounded(b, k);
      AlwaysConsistent(b);
      CopiesStep(After(b), e, k);
  }

  lemma {:induction false} DoubleQueueGivesTwoCopies(r: Run, k: Key) returns (p: Run)
    requires Legal(r) && Doubles(r, k) > 0
    ensures Prefix(p, r) && Legal(p) && Copies(After(p), k) >= 2
  {
    if DoubleQueues(After(r.before), r.event, k) {
      AlwaysConsistent(r.before);
      CopiesStep(After(r.before), r.event, k);
      p := r;
    } else {
      p := DoubleQueueGivesTwoCopies(r.before, k);
    }
  }

  /** A key ever has two copies exactly when some Deploy found it queued, not dirty and not running. */
  lemma TwoCopiesExactlyAfterDoubleQueue(r: Run, k: Key)
    requires Legal(r)
    ensures (exists p :: Prefix(p, r) && Legal(p) && Copies(After(p), k) >= 2) <==> Doubles(r, k) > 0
  {
    if Doubles(r, k) > 0 {
      var p := DoubleQueueGivesTwoCopies(r, k);
    } else {
      forall p | Prefix(p, r) && Legal(p) ensures Copies(After(p), k) < 2 {
        DoublesGrow(p, r, k);
        CopiesBounded(p, k);
      }
    }
  }

  lemma {:induction false} DoublesGrow(p: Run, r: Run, k: Key)
    requires Prefix(p, r) && Legal(r) && Legal(p)
    ensures Doubles(p, k) <= Doubles(r, k)
  {
    if p != r {
      DoublesGrow(p, r.before, k);
    }
  }

  /** No two workers run the same key unless it was double-queued. */
  lemma NeverTwiceInParallel(r: Run, k: Key, i: nat, j: nat)
    requires Legal(r) && Doubles(r, k) == 0
    requires Busy(After(r), i) && After(r).workers[i].value.key == k
    requires Busy(After(r), j) && After(r).workers[j].value.key == k
    ensures i == j
  {
    AlwaysConsistent(r);
    CopiesBounded(r, k);
    if i != j {
      HeldTwice(After(r).workers, if i < j then i else j, if i < j then j else i, k);
    }
  }

  /** Deploy, start running, deploy again with other options. */
  lemma RedeployedWhileRunning(k: Key, p: Payload, p': Payload) returns (r: Run)
    ensures Legal(r) && Doubles(r, k) == 0
    ensures After(r) == World(Queue([k], [k], [], map[], {"f"}), [Some(Request(k, p)), None])
    ensures r.Then? && r.event == Deploy(k, "f", p')
  {
    var job := Request(k, p);
    var r0 := Then(Start(2), Register("f"));
    assert After(r0) == World(EMPTY.(features := {"f"}), [None, None]);
    assert KeysOf([]) == [] && KeysOf([job]) == [k] && Doubles(r0, k) == 0;
    var r1 := Then(r0, Deploy(k, "f", p));
    assert After(r1) == World(Queue([k], [], [job], map[], {"f"}), [None, None]);
    var r2 := Then(r1, Take(0));
    assert After(r2) == World(Queue([], [k], [], map[], {"f"}), [Some(job), None]);
    r := Then(r2, Deploy(k, "f", p'));
    assert Doubles(r1, k) == 0 && Doubles(r2, k) == 0;
  }

  /** The finished run puts the key back in the queue, no longer dirty; the next Deploy queues it again. */
  lemma DoubleQueuedRun(k: Key, p: Payload) returns (r: Run)
    ensures Legal(r) && Doubles(r, k) == 1
    ensures After(r) == World(
      Queue([k], [], [Request(k, p), Request(k, p)], map[], {"f"}), [None, None])
  {
    var job := Request(k, p);
    var r3 := RedeployedWhileRunning(k, p, p);
    var r4 := Then(r3, Store(0, Succeeded));
    assert After(r4) == World(Queue([], [], [job], map[], {"f"}), [None, None]);
    assert KeysOf([job]) == [k];
    assert DoubleQueues(After(r4), Deploy(k, "f", p), k);
    r := Then(r4, Deploy(k, "f", p));
  }

  /** With a double-queue step, two workers can run one key: the unconditional comment does not hold. */
  lemma TwoWorkersCanRunTheSameKey(k: Key, p: Payload)
    ensures exists r: Run ::
      && Legal(r) && Doubles(r, k) == 1 && After(r).workers == [Some(Request(k, p)), Some(Request(k, p))]
  {
    var job := Request(k, p);
    var r := DoubleQueuedRun(k, p);
    var r1 := Then(r, Take(0));
    assert After(r1) == World(Queue([], [k], [job], map[], {"f"}), [Some(job), None]);
    var r2 := Then(r1, Take(1));
    assert After(r2).workers == [Some(job), Some(job)];
    assert Doubles(r1, k) == 1 && Doubles(r2, k) == 1;
    assert Legal(r2);
  }

  /** Without double-queue steps on k, a stored result means k is idle everywhere else. */
  lemma {:induction false} ResultMeansIdle(r: Run, k: Key)
    requires Legal(r) && Doubles(r, k) == 0 && k in After(r).queue.results
    ensures k !in KeysOf(After(r).queue.jobQueue) && k !in After(r).queue.inProgress && k !in After(r).queue.dirty
  {
    var b, e := r.before, r.event;
    AlwaysConsistent(b);
    CopiesBounded(b, k);
    StepView(After(b), e, k);
    ViewMembers(After(b).queue, k);
    ViewMembers(After(r).queue, k);
    if k in After(b).queue.results {
      ResultMeansIdle(b, k);
    }
    AlwaysConsistent(r);
    assert ViewOk(ViewOf(After(r).queue, k));
  }

  /** k was asked for and the request was neither answered by GetResult nor cancelled. */
  predicate Outstanding(r: Run, k: Key)
    requires Legal(r)
  {
    match r
    case Start(_) => false
    case Then(b, e) =>
      if Accepts(After(b), e, k) then true
      else if e == Cleanup(k) || (e == GetResult(k) && k in After(b).queue.results) then false
      else Outstanding(b, k)
  }

  /** No accepted request is lost. */
  lemma {:induction false} OutstandingIsTracked(r: Run, k: Key)
    requires Legal(r) && Outstanding(r, k)
    ensures k in KeysOf(After(r).queue.jobQueue) || k in After(r).queue.inProgress || k in After(r).queue.results
  {
    var b, e := r.before, r.event;
    AlwaysConsistent(b);
    StepView(After(b), e, k);
    ViewMembers(After(b).queue, k);
    ViewMembers(After(r).queue, k);
    if Accepts(After(b), e, k) {
      DirtyIsPending(r, k);
    } else {
      OutstandingIsTracked(b, k);
    }
  }

  /** So GetResult never says a request it should know about is unavailable. */
  lemma OutstandingIsNeverUnavailable(r: Run, k: Key, cleanup: bool)
    requires Legal(r) && Outstanding(r, k)
    ensures !StatusOf(After(r).queue, k, cleanup).UnavailableStatus?
  {
    OutstandingIsTracked(r, k);
  }
}

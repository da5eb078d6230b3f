/** The queue drains, in order, and leaves a result for every request still wanted. */
module QueueProgress {
  import opened Outcomes
  import opened Slices
  import opened WorkQueue
  import opened QueueRuns
  import opened QueueSafety

  /** Work left. A requeue moves one unit from dirty to the queue and costs the run that ended. */
  function Measure(w: World): nat {
    2 * |w.queue.jobQueue| + |w.queue.inProgress| + 2 * |w.queue.dirty|
  }

  lemma DropSwapLength<T>(s: seq<T>, x: T)
    ensures |DropSwap(s, x)| == |s| - if x in s then 1 else 0
  {
  }

  lemma DropFirstShorter<T>(s: seq<T>, x: T)
    ensures |DropFirst(s, x)| <= |s|
  {
  }

  /** Workers' steps use up the measure; only Deploy adds to it. */
  lemma StepMeasure(w: World, e: Event)
    requires Consistent(w) && Enabled(w, e)
    ensures Works(w, e) ==> Measure(Step(w, e)) < Measure(w)
    ensures !e.Deploy? ==> Measure(Step(w, e)) <= Measure(w)
    ensures Measure(Step(w, e)) <= Measure(w) + 4
  {
    match e
    case Take(_) =>
      if w.queue.jobQueue != [] {
        DropSwapLength(w.queue.dirty, w.queue.jobQueue[0].key);
      }
    case Store(i, _) =>
      HeldIsInProgress(w, i);
      DropSwapLength(w.queue.inProgress, w.workers[i].value.key);
      DropSwapLength(w.queue.dirty, w.workers[i].value.key);
    case Cleanup(k) =>
      DropFirstShorter(w.queue.dirty, k);
    case _ =>
  }

  /** Takes and stores since the prefix p. */
  function WorkSince(p: Run, r: Run): nat
    requires Prefix(p, r) && Legal(r)
  {
    if p == r then 0
    else WorkSince(p, r.before) + if Works(After(r.before), r.event) then 1 else 0
  }

  /** No request arrives after p. */
  predicate NoDeploySince(p: Run, r: Run)
    requires Prefix(p, r)
  {
    p == r || (!r.event.Deploy? && NoDeploySince(p, r.before))
  }

  /** Without new requests, the work done plus the work left never exceeds the work there was:
      the workers come to a stop after at most Measure steps, whatever they and the clients do. */
  lemma {:induction false} DrainsWithinMeasure(p: Run, r: Run)
    requires Legal(r) && Legal(p) && Prefix(p, r) && NoDeploySince(p, r)
    ensures WorkSince(p, r) + Measure(After(r)) <= Measure(After(p))
  {
    if p != r {
      PrefixLegal(p, r.before);
      DrainsWithinMeasure(p, r.before);
      AlwaysConsistent(r.before);
      StepMeasure(After(r.before), r.event);
    }
  }

  /** No worker has anything to take or to store. */
  ghost predicate Quiet(w: World) {
    forall e: Event :: !Works(w, e)
  }

  /** When a non-empty pool goes quiet, nothing is queued, running or dirty, and every request that is
      still wanted has its result. */
  lemma QuietMeansDone(r: Run)
    requires Legal(r) && |After(r).workers| > 0 && Quiet(After(r))
    ensures After(r).queue.jobQueue == [] && After(r).queue.inProgress == [] && After(r).queue.dirty == []
    ensures forall k :: Outstanding(r, k) ==> k in After(r).queue.results
  {
    var w := After(r);
    forall i: nat | i < |w.workers| ensures w.workers[i].None? {
      assert !Works(w, Store(i, Succeeded));
    }
    assert w.workers[0].None?;
    assert !Works(w, Take(0));
    AlwaysConsistent(r);
    forall k ensures k !in w.queue.inProgress && k !in w.queue.dirty {
      InProgressMeansRunning(r, k);
      ViewMembers(w.queue, k);
      assert ViewOk(ViewOf(w.queue, k));
      assert KeysOf(w.queue.jobQueue) == [];
    }
    EmptyOrInhabited(w.queue.inProgress);
    EmptyOrInhabited(w.queue.dirty);
    forall k | Outstanding(r, k) ensures k in w.queue.results {
      OutstandingIsTracked(r, k);
      assert KeysOf(w.queue.jobQueue) == [];
    }
  }

  lemma EmptyOrInhabited<T>(s: seq<T>)
    ensures s == [] || exists x :: x in s
  {
    if s != [] {
      assert s[0] in s;
    }
  }

  /** Every legal run of a non-empty pool can be carried on, by workers alone, until it is quiet. */
  lemma {:induction false} CanAlwaysDrain(r: Run) returns (r': Run)
    requires Legal(r) && |After(r).workers| > 0
    ensures Legal(r') && Prefix(r, r') && NoDeploySince(r, r') && Quiet(After(r'))
    decreases Measure(After(r))
  {
    if Quiet(After(r)) {
      r' := r;
    } else {
      var e: Event :| Works(After(r), e);
      var next := Then(r, e);
      AlwaysConsistent(r);
      StepMeasure(After(r), e);
      r' := CanAlwaysDrain(next);
      PrefixTrans(r, next, r');
    }
  }

  lemma {:induction false} PrefixTrans(p: Run, m: Run, r: Run)
    requires m.Then? && m.before == p && !m.event.Deploy?
    requires Prefix(m, r) && NoDeploySince(m, r)
    ensures Prefix(p, r) && NoDeploySince(p, r)
  {
    if m == r {
      assert Prefix(p, p);
    } else {
      PrefixTrans(p, m, r.before);
    }
  }

  /** Two workers run k at the same time. */
  ghost predicate InParallel(w: World, k: Key) {
    exists i: nat, j: nat :: i != j && Runs(w, i, k) && Runs(w, j, k)
  }

  predicate Runs(w: World, i: nat, k: Key) {
    Busy(w, i) && w.workers[i].value.key == k
  }

  lemma {:induction false} TwoHolders(ws: seq<Option<Request>>, k: Key) returns (i: nat, j: nat)
    requires HeldKeys(ws)[k] >= 2
    ensures i < j < |ws| && ws[i].Some? && ws[i].value.key == k && ws[j].Some? && ws[j].value.key == k
  {
    var last := |ws| - 1;
    if HeldKeys(ws[..last])[k] >= 2 {
      i, j := TwoHolders(ws[..last], k);
    } else {
      assert k in HeldKeys(ws[..last]);
      HeldKeysMember(ws[..last], k);
      i :| 0 <= i < last && ws[..last][i].Some? && ws[..last][i].value.key == k;
      j := last;
    }
  }

  /** A step of the workers that does not finish k: another key's store, or, when only k runs, a take. */
  lemma NextStep(r: Run, k: Key) returns (e: Event)
    requires Legal(r) && |After(r).workers| >= 2 && Copies(After(r), k) >= 2 && !InParallel(After(r), k)
    ensures Works(After(r), e) && Copies(Step(After(r), e), k) >= 2
  {
    var w := After(r);
    AlwaysConsistent(r);
    ViewMembers(w.queue, k);
    if i: nat :| Busy(w, i) && w.workers[i].value.key != k {
      e := Store(i, Succeeded);
    } else {
      assert !Runs(w, 0, k) || !Runs(w, 1, k);
      var idle := if w.workers[0].None? then 0 else 1;
      assert !Busy(w, idle);
      if ViewOf(w.queue, k).waiting == 0 {
        assert w.queue.inProgress != [] && HeldKeys(w.workers)[k] >= 2;
        var i, j := TwoHolders(w.workers, k);
        assert Runs(w, i, k) && Runs(w, j, k);
        assert false;
      }
      e := Take(idle);
    }
    StepView(w, e, k);
  }

  /** Two copies of a key can always be brought to run together, by a pool of two or more, without any help
      from clients. */
  lemma {:induction false} CopiesCanMeet(r: Run, k: Key) returns (r': Run)
    requires Legal(r) && |After(r).workers| >= 2 && Copies(After(r), k) >= 2
    ensures Legal(r') && Prefix(r, r') && NoDeploySince(r, r') && InParallel(After(r'), k)
    decreases Measure(After(r))
  {
    if InParallel(After(r), k) {
      r' := r;
    } else {
      var e := NextStep(r, k);
      var next := Then(r, e);
      AlwaysConsistent(r);
      StepMeasure(After(r), e);
      r' := CopiesCanMeet(next, k);
      PrefixTrans(r, next, r');
    }
  }

  lemma {:induction false} NoDeployNoDoubles(p: Run, r: Run, k: Key)
    requires Legal(r) && Legal(p) && Prefix(p, r) && NoDeploySince(p, r)
    ensures Doubles(r, k) == Doubles(p, k)
  {
    if p != r {
      NoDeployNoDoubles(p, r.before, k);
    }
  }

  /** r carries p on without new requests, to where two workers run k. */
  ghost predicate Meets(p: Run, r: Run, k: Key) {
    Legal(p) && Legal(r) && Prefix(p, r) && NoDeploySince(p, r) && InParallel(After(r), k)
  }

  lemma NoDoublesNoMeeting(p: Run, r: Run, k: Key)
    requires Legal(r) && Legal(p) && Doubles(p, k) == 0
    ensures !Meets(p, r, k)
  {
    if Prefix(p, r) && NoDeploySince(p, r) {
      NoDeployNoDoubles(p, r, k);
      forall i: nat, j: nat | Runs(After(r), i, k) && Runs(After(r), j, k) ensures i == j {
        NeverTwiceInParallel(r, k, i, j);
      }
    }
  }

  /** The comment's exact condition: in a pool of two or more, there is a point of the run from which the
      workers alone could come to run k twice at once if and only if some Deploy has found k queued, not dirty
      and not running. */
  lemma ParallelExactlyAfterDoubleQueue(r: Run, k: Key)
    requires Legal(r) && |After(r).workers| >= 2
    ensures (exists p, r' :: Prefix(p, r) && Meets(p, r', k)) <==> Doubles(r, k) > 0
  {
    if Doubles(r, k) > 0 {
      var p := DoubleQueueGivesTwoCopies(r, k);
      PrefixLegal(p, r);
      var r' := CopiesCanMeet(p, k);
      assert Meets(p, r', k);
    } else {
      forall p, r' | Prefix(p, r) && Legal(p) && Legal(r') ensures !Meets(p, r', k) {
        DoublesGrow(p, r, k);
        NoDoublesNoMeeting(p, r', k);
      }
    }
  }

  /** Where a queued entry is now: still waiting at a position, handed to a worker, or cancelled. */
  datatype Place = Waiting(position: nat) | Served | Cancelled

  /** Where one step moves the entry waiting at position j. */
  function Move(q: Queue, e: Event, j: nat): Place {
    match e
    case Take(_) =>
      if q.jobQueue == [] then Waiting(j) else if j == 0 then Served else Waiting(j - 1)
    case Cleanup(k) =>
      if k !in KeysOf(q.jobQueue) then Waiting(j)
      else
        var gone := IndexOf(KeysOf(q.jobQueue), k);
        if gone == j then Cancelled else if gone < j then Waiting(j - 1) else Waiting(j)
    case _ => Waiting(j)
  }

  /** Where the entry is now that was at position i when p ended. */
  function Track(p: Run, r: Run, i: nat): Place
    requires Prefix(p, r) && Legal(r)
  {
    if p == r then Waiting(i)
    else
      var was := Track(p, r.before, i);
      if was.Waiting? then Move(After(r.before).queue, r.event, was.position) else was
  }

  /** Takes that handed out a request since p. */
  function TakesSince(p: Run, r: Run): nat
    requires Prefix(p, r) && Legal(r)
  {
    if p == r then 0
    else TakesSince(p, r.before) + if r.event.Take? && Works(After(r.before), r.event) then 1 else 0
  }

  lemma CleanupMoves(q: Queue, k: Key, j: nat)
    requires j < |q.jobQueue| && Move(q, Cleanup(k), j).Waiting?
    ensures var j' := Move(q, Cleanup(k), j).position;
      j' <= j && j' < |DropFirstJob(q.jobQueue, k)| && DropFirstJob(q.jobQueue, k)[j'].key == q.jobQueue[j].key
  {
  }

  /** One step moves a waiting entry the way Move says: never back, and forward on every take. */
  lemma MoveIsRight(w: World, e: Event, j: nat)
    requires Enabled(w, e) && j < |w.queue.jobQueue| && Move(w.queue, e, j).Waiting?
    ensures var j' := Move(w.queue, e, j).position;
      && j' <= j - (if e.Take? && Works(w, e) then 1 else 0)
      && j' < |Step(w, e).queue.jobQueue|
      && Step(w, e).queue.jobQueue[j'].key == w.queue.jobQueue[j].key
  {
    match e
    case Cleanup(k) => CleanupMoves(w.queue, k, j);
    case _ =>
  }

  /** First come, first served: every take brings a waiting entry at least one place forward and nothing
      pushes it back, so it stops waiting by take i + 1 at the latest. */
  lemma {:induction false} FirstComeFirstServed(p: Run, r: Run, i: nat)
    requires Legal(p) && Legal(r) && Prefix(p, r) && i < |After(p).queue.jobQueue|
    ensures Track(p, r, i).Waiting? ==>
      var j := Track(p, r, i).position;
      && j < |After(r).queue.jobQueue|
      && After(r).queue.jobQueue[j].key == After(p).queue.jobQueue[i].key
      && j + TakesSince(p, r) <= i
  {
    if p != r {
      PrefixLegal(p, r.before);
      FirstComeFirstServed(p, r.before, i);
      if Track(p, r, i).Waiting? {
        MoveIsRight(After(r.before), r.event, Track(p, r.before, i).position);
      }
    }
  }

  lemma ServedByTakeNumber(p: Run, r: Run, i: nat)
    requires Legal(p) && Legal(r) && Prefix(p, r) && i < |After(p).queue.jobQueue|
    requires TakesSince(p, r) > i
    ensures !Track(p, r, i).Waiting?
  {
    FirstComeFirstServed(p, r, i);
  }

  /** Served means that some worker between p and r was handed this entry's key. */
  lemma {:induction false} ServedMeansTaken(p: Run, r: Run, i: nat) returns (m: Run, worker: nat)
    requires Legal(p) && Legal(r) && Prefix(p, r) && i < |After(p).queue.jobQueue|
    requires Track(p, r, i).Served?
    ensures Legal(m) && Prefix(p, m) && Prefix(m, r) && m.Then? && m.event == Take(worker)
    ensures Busy(After(m), worker) && After(m).workers[worker].value.key == After(p).queue.jobQueue[i].key
  {
    PrefixLegal(p, r.before);
    if Track(p, r.before, i).Served? {
      m, worker := ServedMeansTaken(p, r.before, i);
    } else {
      FirstComeFirstServed(p, r.before, i);
      m, worker := r, r.event.worker;
    }
  }
}

/** Exactly when results can be stale, and exactly when a Deploy's options are used. */
module QueueConditions {
  import opened Outcomes
  import opened WorkQueue
  import opened QueueRuns
  import opened QueueSafety
  import opened QueueFreshness
  import opened QueueProgress

  /** r carries p on without queueing k twice once more, to where a result for k is older than the latest Deploy(k). */
  ghost predicate TurnsStale(p: Run, r: Run, k: Key) {
    && Legal(p) && Legal(r) && Prefix(p, r) && Doubles(r, k) == Doubles(p, k)
    && k in After(r).queue.results && StoredFrom(r, k) < LastDeploy(r, k)
  }

  /** Worker j runs k, and was handed it before the latest Deploy(k). */
  predicate RunsOld(r: Run, j: nat, k: Key) {
    Legal(r) && Runs(After(r), j, k) && TakenAt(r, j) < LastDeploy(r, k)
  }

  lemma DeployMakesOld(r: Run, k: Key, p: Payload, i: nat, j: nat) returns (r': Run)
    requires Legal(r) && Runs(After(r), i, k) && Runs(After(r), j, k)
    ensures RunsOld(r', j, k) && Runs(After(r'), i, k) && k in After(r').queue.dirty
    ensures Prefix(r, r') && Doubles(r', k) == Doubles(r, k)
  {
    InProgressMeansRunning(r, k);
    var _ := WorkerProvenance(r, j);
    var known := Then(r, Register("f"));
    assert Legal(known) && Doubles(known, k) == Doubles(r, k);
    r' := Then(known, Deploy(k, "f", p));
    assert Legal(r') && Accepts(After(known), r'.event, k) && !DoubleQueues(After(known), r'.event, k);
    assert TakenAt(r', j) == TakenAt(r, j) && LastDeploy(r', k) == Length(r');
    assert Prefix(r, known) && Prefix(known, r');
  }

  lemma HandBack(r: Run, k: Key, i: nat, j: nat) returns (r': Run)
    requires RunsOld(r, j, k) && Runs(After(r), i, k) && i != j && k in After(r).queue.dirty
    ensures RunsOld(r', j, k) && k !in After(r').queue.dirty
    ensures Prefix(r, r') && Doubles(r', k) == Doubles(r, k)
  {
    r' := Then(r, Store(i, Succeeded));
    AlwaysConsistent(r);
    StepView(After(r), r'.event, k);
  }

  lemma StoreOld(r: Run, k: Key, j: nat) returns (r': Run)
    requires RunsOld(r, j, k) && k !in After(r).queue.dirty
    ensures TurnsStale(r, r', k)
  {
    r' := Then(r, Store(j, Succeeded));
    assert Stores(After(r), r'.event, k);
  }

  lemma {:induction false} PrefixOfPrefix(p: Run, m: Run, r: Run)
    requires Prefix(p, m) && Prefix(m, r)
    ensures Prefix(p, r)
  {
    if m != r {
      PrefixOfPrefix(p, m, r.before);
    }
  }

  /** Two workers run k when it is deployed again: one finishes and hands the request back to the queue, and
      the other's result is stored. */
  lemma ParallelTurnsStale(r: Run, k: Key, p: Payload) returns (r': Run)
    requires Legal(r) && InParallel(After(r), k)
    ensures TurnsStale(r, r', k)
  {
    var i: nat, j: nat :| i != j && Runs(After(r), i, k) && Runs(After(r), j, k);
    var r1 := DeployMakesOld(r, k, p, i, j);
    var r2 := HandBack(r1, k, i, j);
    r' := StoreOld(r2, k, j);
    PrefixOfPrefix(r, r1, r2);
    PrefixOfPrefix(r, r2, r');
  }

  /** Stale results, exactly: in a pool of two or more there is a point of the run from which, with k queued
      twice no more often, a result older than the latest Deploy(k) could be stored if and only if some Deploy
      has found k queued, not dirty and not running. */
  lemma StaleExactlyAfterDoubleQueue(r: Run, k: Key)
    requires Legal(r) && |After(r).workers| >= 2
    ensures (exists p, r' :: Prefix(p, r) && TurnsStale(p, r', k)) <==> Doubles(r, k) > 0
  {
    if Doubles(r, k) > 0 {
      var p := DoubleQueueGivesTwoCopies(r, k);
      PrefixLegal(p, r);
      var met := CopiesCanMeet(p, k);
      NoDeployNoDoubles(p, met, k);
      var r' := ParallelTurnsStale(met, k, Payload(0, 0, 0));
      PrefixOfPrefix(p, met, r');
      assert TurnsStale(p, r', k);
    } else {
      forall p, r' | Prefix(p, r) && Legal(p) && Legal(r') ensures !TurnsStale(p, r', k) {
        DoublesGrow(p, r, k);
        if TurnsStale(p, r', k) {
          ResultsAreFresh(r', k);
        }
      }
    }
  }

  /** Worker i runs k with payload p. */
  ghost predicate RunsWith(w: World, k: Key, p: Payload) {
    exists i: nat :: Busy(w, i) && w.workers[i].value == Request(k, p)
  }

  /** m continues d, in which k is neither deployed again, nor cancelled, nor handed to a worker. */
  predicate Unserved(d: Run, m: Run, k: Key)
    requires Legal(m)
  {
    m == d || (m.Then? && Unserved(d, m.before, k)
               && !Accepts(After(m.before), m.event, k) && m.event != Cleanup(k)
               && !Hands(After(m.before), m.event, k))
  }

  /** The step hands k to a worker. */
  predicate Hands(w: World, e: Event, k: Key) {
    e.Take? && Works(w, e) && w.queue.jobQueue[0].key == k
  }

  /** Since the Deploy: queued and dirty if k was idle; if it was running, still running and dirty, or back in the
      queue and not dirty. */
  predicate AwaitsNext(v: View, wasRunning: bool) {
    if wasRunning then v.waiting + v.running == 1 && v.dirty == (v.running == 1)
    else v.waiting == 1 && v.running == 0 && v.dirty
  }

  lemma {:induction false} AwaitsUntilServed(b: Run, e: Event, m: Run, k: Key)
    requires Legal(Then(b, e)) && Accepts(After(b), e, k) && Legal(m) && Unserved(Then(b, e), m, k)
    requires Doubles(Then(b, e), k) == 0
    ensures AwaitsNext(ViewOf(After(m).queue, k), k in After(b).queue.inProgress)
    ensures LastPayload(m, k) == Some(e.payload) && LastTaken(m, k) == LastTaken(b, k) && Doubles(m, k) == 0
  {
    if m == Then(b, e) {
      AlwaysConsistent(b);
      CopiesBounded(b, k);
      StepView(After(b), e, k);
      ViewMembers(After(b).queue, k);
    } else {
      AwaitsUntilServed(b, e, m.before, k);
      AlwaysConsistent(m.before);
      StepView(After(m.before), m.event, k);
    }
  }

  /** Whose options are used, exactly. A Deploy(k) with payload p is accepted, without double-queue steps on k so far,
      and neither repeated nor cancelled before the next invocation of k. That invocation is given p if and only if
      k was not running at the Deploy, or was running with p already. */
  lemma NextInvocationOptions(b: Run, e: Event, m: Run, worker: nat, k: Key)
    requires Legal(Then(b, e)) && Accepts(After(b), e, k) && Doubles(Then(b, e), k) == 0
    requires Legal(m) && Unserved(Then(b, e), m, k)
    requires Legal(Then(m, Take(worker))) && Hands(After(m), Take(worker), k)
    ensures After(Then(m, Take(worker))).workers[worker] == Some(Request(k, e.payload))
      <==> (k !in After(b).queue.inProgress || RunsWith(After(b), k, e.payload))
  {
    AwaitsUntilServed(b, e, m, k);
    QueuedEntryPayload(m, k);
    AlwaysConsistent(m);
    StepView(After(m), Take(worker), k);
    var given := After(m).queue.jobQueue[0].payload;
    assert Some(given) == if k in After(m).queue.dirty then LastPayload(m, k) else LastTaken(m, k);
    if k in After(b).queue.inProgress {
      InProgressMeansRunning(b, k);
      forall i: nat | Busy(After(b), i) && After(b).workers[i].value.key == k
        ensures Some(After(b).workers[i].value.payload) == LastTaken(b, k)
      {
        HeldPayload(b, k, i);
      }
    }
  }
}

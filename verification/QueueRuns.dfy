/** Runs of the deployer: client calls and worker steps, interleaved in any order. */
module QueueRuns {
  import opened Outcomes
  import opened WorkQueue

  datatype Event =
    | Register(feature: string)
    | Deploy(key: Key, feature: string, payload: Payload)
    | Take(worker: nat)
    | Store(worker: nat, outcome: Outcome)
    | GetResult(key: Key)
    | Cleanup(key: Key)

  /** A worker holds the request whose handler it is running, if any. */
  datatype World = World(queue: Queue, workers: seq<Option<Request>>)

  /** A run, latest event outermost, over a pool of the given size. */
  datatype Run = Start(poolSize: nat) | Then(before: Run, event: Event)

  function Idle(n: nat): seq<Option<Request>> {
    seq(n, _ => None)
  }

  predicate Busy(w: World, worker: nat) {
    worker < |w.workers| && w.workers[worker].Some?
  }

  /** A worker takes only when it holds nothing, and stores only what it holds. */
  predicate Enabled(w: World, e: Event) {
    match e
    case Take(i) => i < |w.workers| && w.workers[i].None?
    case Store(i, _) => Busy(w, i)
    case _ => true
  }

  function Step(w: World, e: Event): World
    requires Enabled(w, e)
  {
    match e
    case Register(f) => w.(queue := Registered(w.queue, f))
    case Deploy(k, f, p) => w.(queue := Deployed(w.queue, k, f, p))
    case Take(i) =>
      if w.queue.jobQueue == [] then w
      else World(Taken(w.queue), w.workers[i := Some(w.queue.jobQueue[0])])
    case Store(i, o) =>
      World(Stored(w.queue, w.workers[i].value, o), w.workers[i := None])
    case GetResult(k) => w.(queue := Consumed(w.queue, k))
    case Cleanup(k) => w.(queue := CleanedUp(w.queue, k))
  }

  predicate Legal(r: Run)
    decreases r, 0
  {
    match r
    case Start(_) => true
    case Then(b, e) => Legal(b) && Enabled(After(b), e)
  }

  function After(r: Run): World
    requires Legal(r)
    decreases r, 1
  {
    match r
    case Start(n) => World(EMPTY, Idle(n))
    case Then(b, e) => Step(After(b), e)
  }

  function Length(r: Run): nat {
    match r
    case Start(_) => 0
    case Then(b, _) => 1 + Length(b)
  }

  /** p is r, or r with some of its latest events undone. */
  predicate Prefix(p: Run, r: Run) {
    p == r || (r.Then? && Prefix(p, r.before))
  }

  /** An accepted request: its feature is registered. */
  predicate Accepts(w: World, e: Event, k: Key) {
    e.Deploy? && e.key == k && e.feature in w.queue.features
  }

  /** A take that hands out a request, or a store: the steps by which workers make progress. */
  predicate Works(w: World, e: Event) {
    Enabled(w, e) && (e.Store? || (e.Take? && w.queue.jobQueue != []))
  }

  /** The Deploy that queues k a second time: k waits in jobQueue, but is neither dirty nor running. */
  predicate DoubleQueues(w: World, e: Event, k: Key) {
    && Accepts(w, e, k)
    && k !in w.queue.dirty && k !in w.queue.inProgress && k in KeysOf(w.queue.jobQueue)
  }

  function Doubles(r: Run, k: Key): nat
    requires Legal(r)
  {
    match r
    case Start(_) => 0
    case Then(b, e) => Doubles(b, k) + if DoubleQueues(After(b), e, k) then 1 else 0
  }

  /** Copies of k waiting or running. */
  function Copies(w: World, k: Key): nat {
    multiset(KeysOf(w.queue.jobQueue))[k] + multiset(w.queue.inProgress)[k]
  }

  function HeldKeys(workers: seq<Option<Request>>): multiset<Key> {
    if workers == [] then multiset{}
    else
      var last := workers[|workers| - 1];
      HeldKeys(workers[..|workers| - 1]) + if last.Some? then multiset{last.value.key} else multiset{}
  }

  lemma {:induction false} PrefixLegal(p: Run, r: Run)
    requires Prefix(p, r) && Legal(r)
    ensures Legal(p) && Length(p) <= Length(r)
    ensures |After(p).workers| == |After(r).workers|
  {
    if p != r {
      PrefixLegal(p, r.before);
    }
  }

  lemma {:induction false} HeldKeysIdle(n: nat)
    ensures HeldKeys(Idle(n)) == multiset{}
  {
    if n > 0 {
      assert Idle(n)[..n - 1] == Idle(n - 1);
      HeldKeysIdle(n - 1);
    }
  }

  lemma {:induction false} HeldKeysUpdate(ws: seq<Option<Request>>, i: nat, job: Request)
    requires i < |ws|
    ensures HeldKeys(ws[i := Some(job)]) == HeldKeys(ws[i := None]) + multiset{job.key}
  {
    var last := |ws| - 1;
    if i < last {
      HeldKeysUpdate(ws[..last], i, job);
      assert ws[i := Some(job)][..last] == ws[..last][i := Some(job)];
      assert ws[i := None][..last] == ws[..last][i := None];
    } else {
      assert ws[i := Some(job)][..last] == ws[..last] == ws[i := None][..last];
    }
  }

  lemma {:induction false} HeldKeysMember(ws: seq<Option<Request>>, k: Key)
    ensures k in HeldKeys(ws) <==> exists i :: 0 <= i < |ws| && ws[i].Some? && ws[i].value.key == k
  {
    if ws != [] {
      var last := |ws| - 1;
      HeldKeysMember(ws[..last], k);
      assert ws == ws[..last] + [ws[last]];
    }
  }

  /** Two different workers holding k count twice. */
  lemma {:induction false} HeldTwice(ws: seq<Option<Request>>, i: nat, j: nat, k: Key)
    requires i < j < |ws|
    requires ws[i].Some? && ws[i].value.key == k && ws[j].Some? && ws[j].value.key == k
    ensures HeldKeys(ws)[k] >= 2
  {
    var last := |ws| - 1;
    if j < last {
      HeldTwice(ws[..last], i, j, k);
    } else {
      assert ws[..last][i] == ws[i];
      HeldKeysMember(ws[..last], k);
    }
  }
}

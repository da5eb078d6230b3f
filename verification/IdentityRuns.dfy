/** Runs of the workload-identity cache: calls overlap, and those that miss together share one flight. */
module IdentityRuns {
  import opened Outcomes
  import opened ManagementCluster
  import opened WorkloadIdentity

  /** What a provider issued: to which call, for whose spec, when and until when. */
  datatype Issue = Issue(
    leader: nat, key: string, namespace: string, spec: IdentitySpec, config: RestConfig, at: int, expiresAt: int)

  /** The leader runs a flight, on its own spec: it reads the CA Secret, then asks the provider. Once over, the
      flight still takes on callers until it lands. */
  datatype Flight =
    | Running(leader: nat, namespace: string, spec: IdentitySpec)
    | Asking(leader: nat, namespace: string, spec: IdentitySpec, ca: string)
    | Stored(leader: nat, spec: IdentitySpec, config: RestConfig)
    | Broken(leader: nat, spec: IdentitySpec)

  /** Joined a flight that another call leads, on its own spec. */
  datatype Path = Hit | Led | Joined(leader: nat, with: IdentitySpec)

  /** A caller has missed the fast path, waits on a flight, or has returned. */
  datatype Caller =
    | Missed(key: string, namespace: string, spec: IdentitySpec)
    | Waiting(key: string, spec: IdentitySpec, path: Path)
    | Answered(key: string, spec: IdentitySpec, path: Path, config: RestConfig, at: int)
    | Failed(key: string, spec: IdentitySpec)

  datatype World = World(
    hash: IdentitySpec -> string, now: int, entries: map<string, Entry>, flights: map<string, Flight>,
    callers: map<nat, Caller>, issues: set<Issue>)

  datatype Event =
    | Tick(seconds: nat)
    | Call(caller: nat, namespace: string, name: string, spec: IdentitySpec)
    | Enter(caller: nat)
    | ReadCa(key: string, env: Env)
    | Fetch(key: string, token: string, expiresAt: int)
    | Break(key: string)
    | Land(key: string)
    | Evict(namespace: string, name: string)

  datatype Run = Start(hash: IdentitySpec -> string, now: int) | Then(before: Run, event: Event)

  predicate Over(f: Flight) {
    f.Stored? || f.Broken?
  }

  /** The CA Secret is read as the management cluster then has it. Providers choose when a token expires, except
      that AWS tokens live a fixed time. */
  predicate Enabled(w: World, e: Event) {
    match e
    case Call(c, _, _, _) => c !in w.callers
    case Enter(c) => c in w.callers && w.callers[c].Missed?
    case ReadCa(key, env) =>
      && key in w.flights && w.flights[key].Running?
      && CaData(env, w.flights[key].namespace, w.flights[key].spec.caSecret).Ok?
    case Fetch(key, _, expiresAt) =>
      && key in w.flights && w.flights[key].Asking? && w.flights[key].spec.provider in PROVIDERS
      && (w.flights[key].spec.provider == "AWS" ==> expiresAt == w.now + EKS_TOKEN_TTL)
    case Break(key) => key in w.flights && !Over(w.flights[key])
    case Land(key) => key in w.flights && Over(w.flights[key])
    case _ => true
  }

  /** A waiting caller gets what the flight came to, whatever its own spec. */
  function Returned(c: Caller, key: string, f: Flight, now: int): Caller {
    if !(c.Waiting? && c.key == key) then c
    else if f.Stored? then Answered(key, c.spec, c.path, f.config, now)
    else Failed(key, c.spec)
  }

  /** What a fetch hands out. */
  function Handed(w: World, key: string, token: string): RestConfig
    requires key in w.flights && w.flights[key].Asking?
  {
    FromIdentity(w.flights[key].spec.endpoint, token, w.flights[key].ca)
  }

  ghost function Step(w: World, e: Event): World
    requires Enabled(w, e)
  {
    match e
    case Tick(d) => w.(now := w.now + d)
    case Call(c, ns, n, spec) =>
      var key := CacheKey(ns, n);
      w.(callers := w.callers[c :=
        if key in w.entries && Reusable(w.entries[key], w.hash(spec), w.now) then
          Answered(key, spec, Hit, w.entries[key].config, w.now)
        else Missed(key, ns, spec)])
    case Enter(c) =>
      var key, spec := w.callers[c].key, w.callers[c].spec;
      if key in w.flights then
        w.(callers := w.callers[c := Waiting(key, spec, Joined(w.flights[key].leader, w.flights[key].spec))])
      else
        w.(callers := w.callers[c := Waiting(key, spec, Led)],
           flights := w.flights[key := Running(c, w.callers[c].namespace, spec)])
    case ReadCa(key, env) =>
      var f := w.flights[key];
      var ca := CaData(env, f.namespace, f.spec.caSecret).value;
      w.(flights := w.flights[key := Asking(f.leader, f.namespace, f.spec, ca)])
    case Fetch(key, token, expiresAt) =>
      var f, config := w.flights[key], Handed(w, key, token);
      w.(entries := w.entries[key := Entry(config, expiresAt, w.hash(f.spec))],
         flights := w.flights[key := Stored(f.leader, f.spec, config)],
         issues := w.issues + {Issue(f.leader, key, f.namespace, f.spec, config, w.now, expiresAt)})
    case Break(key) => w.(flights := w.flights[key := Broken(w.flights[key].leader, w.flights[key].spec)])
    case Land(key) =>
      w.(callers := map c | c in w.callers :: Returned(w.callers[c], key, w.flights[key], w.now),
         flights := w.flights - {key})
    case Evict(ns, n) => w.(entries := w.entries - {CacheKey(ns, n)})
  }

  ghost predicate Legal(r: Run)
    decreases r, 0
  {
    match r
    case Start(_, _) => true
    case Then(b, e) => Legal(b) && Enabled(After(b), e)
  }

  ghost function After(r: Run): World
    requires Legal(r)
    decreases r, 1
  {
    match r
    case Start(hash, now) => World(hash, now, map[], map[], map[], {})
    case Then(b, e) => Step(After(b), e)
  }

  /** The config was issued for the key: to a spec with this hash, expiring then. */
  ghost predicate IssuedTo(w: World, key: string, config: RestConfig, specHash: string, expiresAt: int) {
    exists i ::
      && i in w.issues && i.key == key && i.config == config
      && w.hash(i.spec) == specHash && i.expiresAt == expiresAt
  }

  /** The config was issued for the key to this call, for this spec. */
  ghost predicate IssuedFor(w: World, leader: nat, key: string, config: RestConfig, spec: IdentitySpec) {
    exists i :: i in w.issues && i.leader == leader && i.key == key && i.config == config && i.spec == spec
  }

  /** Issued to a spec with the caller's hash, with more than the threshold left when it was returned. */
  ghost predicate GoodHit(w: World, c: Caller)
    requires c.Answered?
  {
    exists i :: i in w.issues && i.key == c.key && i.config == c.config
                && w.hash(i.spec) == w.hash(c.spec) && i.expiresAt - c.at > REFRESH_THRESHOLD
  }

  ghost predicate EntriesIssued(w: World) {
    forall k :: k in w.entries ==> IssuedTo(w, k, w.entries[k].config, w.entries[k].specHash, w.entries[k].expiresAt)
  }

  ghost predicate FlightIssued(w: World, key: string, f: Flight)
    requires f.Stored?
  {
    IssuedFor(w, f.leader, key, f.config, f.spec)
  }

  ghost predicate FlightsIssued(w: World) {
    forall k :: k in w.flights && w.flights[k].Stored? ==> FlightIssued(w, k, w.flights[k])
  }

  /** Callers wait on flights only, and each flight has one leader among them. */
  ghost predicate LeadersFly(w: World) {
    && (forall c :: c in w.callers && w.callers[c].Waiting? ==> WaitsWell(w, c))
    && (forall k :: k in w.flights ==>
          w.flights[k].leader in w.callers && w.callers[w.flights[k].leader] == Waiting(k, w.flights[k].spec, Led))
  }

  ghost predicate WaitsWell(w: World, c: nat)
    requires c in w.callers && w.callers[c].Waiting?
  {
    && w.callers[c].key in w.flights && !w.callers[c].path.Hit?
    && (w.callers[c].path.Led? ==> w.flights[w.callers[c].key].leader == c)
    && (w.callers[c].path.Joined? ==>
         var f := w.flights[w.callers[c].key]; w.callers[c].path == Joined(f.leader, f.spec))
  }

  ghost predicate AnswersGood(w: World) {
    forall c :: c in w.callers && w.callers[c].Answered? ==> AnswerGood(w, c, w.callers[c])
  }

  ghost predicate AnswerGood(w: World, id: nat, c: Caller)
    requires c.Answered?
  {
    match c.path
    case Hit => GoodHit(w, c)
    case Led => IssuedFor(w, id, c.key, c.config, c.spec)
    case Joined(leader, spec) => IssuedFor(w, leader, c.key, c.config, spec)
  }

  /** Issues are never in the future, lead to the endpoint of their spec, and on AWS last the fixed time. */
  ghost predicate IssuesDated(w: World) {
    forall i :: i in w.issues ==>
      && i.at <= w.now && i.spec.provider in PROVIDERS
      && i.config.FromIdentity? && i.config.endpoint == i.spec.endpoint
      && (i.spec.provider == "AWS" ==> i.expiresAt == i.at + EKS_TOKEN_TTL)
  }

  /** Every token was issued to a call that led a flight, and returned by it, or about to be. */
  ghost predicate IssuesLed(w: World) {
    && (forall i :: i in w.issues ==> i.leader in w.callers && IssueLed(w, i, w.callers[i.leader]))
    && (forall i, j :: i in w.issues && j in w.issues && i.leader == j.leader ==> i == j)
  }

  ghost predicate IssueLed(w: World, i: Issue, c: Caller) {
    || (c.Answered? && c.path.Led? && c.key == i.key && c.spec == i.spec && c.config == i.config)
    || (c == Waiting(i.key, i.spec, Led)
        && i.key in w.flights && w.flights[i.key] == Stored(i.leader, i.spec, i.config))
  }

  ghost predicate Sourced(w: World) {
    EntriesIssued(w) && FlightsIssued(w) && AnswersGood(w) && IssuesDated(w)
  }

  ghost predicate Traced(w: World) {
    Sourced(w) && LeadersFly(w) && IssuesLed(w)
  }

  /** What has been issued stays on record. */
  lemma RecordsGrow(w: World, w': World)
    requires w'.hash == w.hash && w.issues <= w'.issues
    ensures forall k, c, h, t :: IssuedTo(w, k, c, h, t) ==> IssuedTo(w', k, c, h, t)
    ensures forall l, k, c, s :: IssuedFor(w, l, k, c, s) ==> IssuedFor(w', l, k, c, s)
    ensures forall id: nat, c: Caller :: c.Answered? && AnswerGood(w, id, c) ==> AnswerGood(w', id, c)
  {
    forall id: nat, c: Caller | c.Answered? && AnswerGood(w, id, c) ensures AnswerGood(w', id, c) {
    }
  }

  lemma CallKeeps(w: World, e: Event)
    requires Sourced(w) && e.Call? && Enabled(w, e)
    ensures Sourced(Step(w, e))
  {
    var w', key := Step(w, e), CacheKey(e.namespace, e.name);
    RecordsGrow(w, w');
    if w'.callers[e.caller].Answered? {
      var entry := w.entries[key];
      assert IssuedTo(w, key, entry.config, entry.specHash, entry.expiresAt);
      assert GoodHit(w', w'.callers[e.caller]);
    }
  }

  lemma EnterKeeps(w: World, e: Event)
    requires Sourced(w) && e.Enter? && Enabled(w, e)
    ensures Sourced(Step(w, e))
  {
    RecordsGrow(w, Step(w, e));
  }

  lemma FetchKeeps(w: World, e: Event)
    requires Sourced(w) && e.Fetch? && Enabled(w, e)
    ensures Sourced(Step(w, e))
  {
    var w', f := Step(w, e), w.flights[e.key];
    var i := Issue(f.leader, e.key, f.namespace, f.spec, Handed(w, e.key, e.token), w.now, e.expiresAt);
    RecordsGrow(w, w');
    assert i in w'.issues;
    assert IssuedTo(w', e.key, i.config, w.hash(f.spec), e.expiresAt);
    assert IssuedFor(w', f.leader, e.key, i.config, f.spec);
  }

  /** Joining or leading a flight, and what the flight comes to. */
  lemma LeadersKept(w: World, e: Event)
    requires LeadersFly(w) && (e.Call? || e.Enter? || e.Fetch?) && Enabled(w, e)
    ensures LeadersFly(Step(w, e))
  {
  }

  lemma IssuesKept(w: World, e: Event)
    requires LeadersFly(w) && IssuesLed(w) && (e.Call? || e.Enter? || e.Fetch?) && Enabled(w, e)
    ensures IssuesLed(Step(w, e))
  {
  }

  lemma LandKeeps(w: World, e: Event)
    requires Sourced(w) && LeadersFly(w) && e.Land? && Enabled(w, e)
    ensures Sourced(Step(w, e))
  {
    var w', f := Step(w, e), w.flights[e.key];
    RecordsGrow(w, w');
    forall c | c in w'.callers && w'.callers[c].Answered? ensures AnswerGood(w', c, w'.callers[c]) {
      if w.callers[c].Waiting? {
        assert WaitsWell(w, c) && FlightIssued(w, e.key, f);
      }
    }
  }

  lemma LeadersLand(w: World, e: Event)
    requires LeadersFly(w) && IssuesLed(w) && e.Land? && Enabled(w, e)
    ensures LeadersFly(Step(w, e)) && IssuesLed(Step(w, e))
  {
  }

  lemma OthersKeepSources(w: World, e: Event)
    requires Sourced(w) && (e.Tick? || e.ReadCa? || e.Break? || e.Evict?) && Enabled(w, e)
    ensures Sourced(Step(w, e))
  {
    RecordsGrow(w, Step(w, e));
  }

  lemma OthersKeepLeaders(w: World, e: Event)
    requires LeadersFly(w) && IssuesLed(w) && (e.Tick? || e.ReadCa? || e.Break? || e.Evict?) && Enabled(w, e)
    ensures LeadersFly(Step(w, e)) && IssuesLed(Step(w, e))
  {
  }

  lemma StepKeepsTraced(w: World, e: Event)
    requires Traced(w) && Enabled(w, e)
    ensures Traced(Step(w, e))
  {
    match e
    case Call(_, _, _, _) => CallKeeps(w, e); LeadersKept(w, e); IssuesKept(w, e);
    case Enter(_) => EnterKeeps(w, e); LeadersKept(w, e); IssuesKept(w, e);
    case Fetch(_, _, _) => FetchKeeps(w, e); LeadersKept(w, e); IssuesKept(w, e);
    case Land(_) => LandKeeps(w, e); LeadersLand(w, e);
    case _ => OthersKeepSources(w, e); OthersKeepLeaders(w, e);
  }

  lemma {:induction false} AlwaysTraced(r: Run)
    requires Legal(r)
    ensures Traced(After(r))
  {
    if r.Then? {
      AlwaysTraced(r.before);
      StepKeepsTraced(After(r.before), r.event);
    }
  }

  /** Each entry was built from a spec with the stored hash, for that cluster, and expires when the token does. */
  lemma EntriesTellTheTruth(r: Run, key: string)
    requires Legal(r) && key in After(r).entries
    ensures exists i ::
      && i in After(r).issues && i.key == key
      && After(r).entries[key] == Entry(i.config, i.expiresAt, After(r).hash(i.spec))
  {
    AlwaysTraced(r);
    var e := After(r).entries[key];
    assert IssuedTo(After(r), key, e.config, e.specHash, e.expiresAt);
  }

  ghost predicate Injective(hash: IdentitySpec -> string) {
    forall a, b :: hash(a) == hash(b) ==> a == b
  }

  /** The fast path hands out a config issued to the caller's own spec, with more than five minutes left;
      on AWS it is then less than ten minutes old. */
  lemma HitsFitTheirCaller(r: Run, c: nat)
    requires Legal(r) && Injective(After(r).hash)
    requires c in After(r).callers && After(r).callers[c].Answered? && After(r).callers[c].path.Hit?
    ensures exists i ::
      && i in After(r).issues && i.key == After(r).callers[c].key
      && i.config == After(r).callers[c].config && i.spec == After(r).callers[c].spec
      && i.expiresAt - After(r).callers[c].at > 300
      && (i.spec.provider == "AWS" ==> After(r).callers[c].at < i.at + 600)
  {
    AlwaysTraced(r);
    var w, caller := After(r), After(r).callers[c];
    assert GoodHit(w, caller);
    var i :| i in w.issues && i.key == caller.key && i.config == caller.config
      && w.hash(i.spec) == w.hash(caller.spec) && i.expiresAt - caller.at > REFRESH_THRESHOLD;
    assert i.spec == caller.spec;
  }

  /** A call that led its flight gets a config for its own spec. */
  lemma LeadersFitTheirCaller(r: Run, c: nat)
    requires Legal(r)
    requires c in After(r).callers && After(r).callers[c].Answered? && After(r).callers[c].path.Led?
    ensures IssuedFor(After(r), c, After(r).callers[c].key, After(r).callers[c].config, After(r).callers[c].spec)
  {
    AlwaysTraced(r);
    assert AnswerGood(After(r), c, After(r).callers[c]);
  }

  /** A call that joined a flight gets a config for the spec that flight flies on. */
  lemma JoinersFitTheLeader(r: Run, c: nat)
    requires Legal(r)
    requires c in After(r).callers && After(r).callers[c].Answered? && After(r).callers[c].path.Joined?
    ensures var a := After(r).callers[c]; IssuedFor(After(r), a.path.leader, a.key, a.config, a.path.with)
    ensures After(r).callers[c].config.FromIdentity?
    ensures After(r).callers[c].config.endpoint == After(r).callers[c].path.with.endpoint
  {
    AlwaysTraced(r);
    assert AnswerGood(After(r), c, After(r).callers[c]);
  }

  /** Everyone on a flight returns what its leader returns, so a caller that joined gets a config for its own
      spec if the leader's spec is the same. */
  lemma JoinersGetTheLeadersConfig(r: Run, key: string, c: nat)
    requires Legal(Then(r, Land(key)))
    requires c in After(r).callers && After(r).callers[c].Waiting? && After(r).callers[c].key == key
    ensures
      var f, callers := After(r).flights[key], After(Then(r, Land(key))).callers;
      && f.leader in callers && After(r).callers[f.leader] == Waiting(key, f.spec, Led)
      && (callers[c].Answered? <==> f.Stored?) && (callers[c].Failed? <==> f.Broken?)
      && (f.Stored? ==> callers[c].config == callers[f.leader].config == f.config)
      && (f.Stored? ==> IssuedFor(After(r), f.leader, key, callers[c].config, f.spec))
  {
    AlwaysTraced(r);
  }

  /** No call led two provider calls, and no call that hit or joined led one: callers that overlap on a
      flight cost one provider call between them. */
  lemma OneProviderCallPerFlight(r: Run, i: Issue, j: Issue)
    requires Legal(r) && i in After(r).issues && j in After(r).issues && i.leader == j.leader
    ensures i == j && i.leader in After(r).callers
    ensures var c := After(r).callers[i.leader]; (c.Waiting? || c.Answered?) && c.path.Led? && c.key == i.key
  {
    AlwaysTraced(r);
  }

  /** r continues p without a fetch for the key. */
  ghost predicate WithoutFetch(p: Run, r: Run, key: string) {
    r == p || (r.Then? && WithoutFetch(p, r.before, key) && !(r.event.Fetch? && r.event.key == key))
  }

  lemma PrefixIsLegal(p: Run, r: Run, key: string)
    requires Legal(r) && WithoutFetch(p, r, key)
    ensures Legal(p)
  {
  }

  /** What has been evicted stays out until a fetch for it completes. */
  lemma {:induction false} EvictedUntilFetched(p: Run, r: Run, key: string)
    requires Legal(r) && WithoutFetch(p, r, key) && Legal(p) && key !in After(p).entries
    ensures key !in After(r).entries
  {
    if r != p {
      PrefixIsLegal(p, r.before, key);
      EvictedUntilFetched(p, r.before, key);
    }
  }

  /** r continues p, in which nobody calls. Calls made before may go on. */
  ghost predicate WithoutCalls(p: Run, r: Run) {
    r == p || (r.Then? && WithoutCalls(p, r.before) && !r.event.Call?)
  }

  lemma {:induction false} WithoutCallsTrans(p: Run, m: Run, r: Run)
    requires WithoutCalls(p, m) && WithoutCalls(m, r)
    ensures WithoutCalls(p, r)
  {
    if r != m {
      WithoutCallsTrans(p, m, r.before);
    }
  }

  /** A flight for the key is under way, and its spec names a provider there is. */
  predicate MayFetch(w: World, key: string) {
    key in w.flights && !Over(w.flights[key]) && w.flights[key].spec.provider in PROVIDERS
  }

  /** A call has missed the fast path for the key and not entered yet, and its spec names a provider there is. */
  predicate MayEnter(w: World, c: nat, key: string) {
    c in w.callers && w.callers[c].Missed? && w.callers[c].key == key && w.callers[c].spec.provider in PROVIDERS
  }

  /** An entry for the key can still come to be built from this spec without a new call. */
  ghost predicate Pending(w: World, key: string, spec: IdentitySpec) {
    || (MayFetch(w, key) && w.flights[key].spec == spec)
    || exists c :: MayEnter(w, c, key) && w.callers[c].spec == spec
  }

  /** A management cluster that has the CA Secret a spec may ask for. */
  function EnvWithCa(namespace: string, caSecret: Option<string>): (env: Env)
    ensures CaData(env, namespace, caSecret).Ok?
  {
    Env(map[], if caSecret.None? then map[] else map[SecretRef(namespace, caSecret.value) := map[CA_KEY := ""]], {})
  }

  /** The flight goes on to the provider's answer. */
  ghost function Completed(r: Run, key: string): Run
    requires Legal(r) && MayFetch(After(r), key)
  {
    var f := After(r).flights[key];
    var asking := if f.Running? then Then(r, ReadCa(key, EnvWithCa(f.namespace, f.spec.caSecret))) else r;
    Then(asking, Fetch(key, "", After(r).now + EKS_TOKEN_TTL))
  }

  lemma FlightCompletes(r: Run, key: string)
    requires Legal(r) && MayFetch(After(r), key)
    ensures
      var r', f := Completed(r, key), After(r).flights[key];
      && Legal(r') && WithoutCalls(r, r') && Continues(r, r') && After(r').hash == After(r).hash
      && key in After(r').entries && After(r').entries[key].specHash == After(r).hash(f.spec)
      && Asked(After(r'), f.leader)
  {
    var f, r' := After(r).flights[key], Completed(r, key);
    assert Legal(r'.before) && Legal(r');
    assert WithoutCalls(r, r) && WithoutCalls(r, r'.before) && Continues(r, r) && Continues(r, r'.before);
    var config := Handed(After(r'.before), key, "");
    assert Issue(f.leader, key, f.namespace, f.spec, config, After(r).now, After(r).now + EKS_TOKEN_TTL)
      in After(r').issues;
  }

  /** Whatever flight there is for the key ends, and the call that has not entered yet is still there. */
  lemma FlightsClear(r: Run, c: nat, key: string) returns (r': Run)
    requires Legal(r) && MayEnter(After(r), c, key)
    ensures Legal(r') && WithoutCalls(r, r') && After(r').hash == After(r).hash && key !in After(r').flights
    ensures c in After(r').callers && After(r').callers[c] == After(r).callers[c]
  {
    r' := r;
    assert WithoutCalls(r, r');
    if key in After(r').flights && !Over(After(r').flights[key]) {
      r' := Then(r', Break(key));
      assert Legal(r') && WithoutCalls(r, r');
    }
    if key in After(r').flights {
      r' := Then(r', Land(key));
      assert Legal(r');
    }
  }

  lemma EnteringCompletes(r: Run, c: nat, key: string) returns (r': Run)
    requires Legal(r) && MayEnter(After(r), c, key)
    ensures Legal(r') && WithoutCalls(r, r') && After(r').hash == After(r).hash
    ensures key in After(r').entries && After(r').entries[key].specHash == After(r).hash(After(r).callers[c].spec)
  {
    var clear := FlightsClear(r, c, key);
    var entered := Then(clear, Enter(c));
    assert Legal(entered) && WithoutCalls(clear, clear) && WithoutCalls(clear, entered);
    FlightCompletes(entered, key);
    r' := Completed(entered, key);
    WithoutCallsTrans(r, clear, entered);
    WithoutCallsTrans(r, entered, r');
  }

  lemma PendingStep(w: World, e: Event, key: string, spec: IdentitySpec)
    requires Enabled(w, e) && !e.Call? && Pending(Step(w, e), key, spec)
    ensures Pending(w, key, spec)
  {
    var w' := Step(w, e);
    if MayFetch(w', key) && w'.flights[key].spec == spec {
      if e.Enter? && w.callers[e.caller].key == key && key !in w.flights {
        assert MayEnter(w, e.caller, key);
      }
    } else {
      var c :| MayEnter(w', c, key) && w'.callers[c].spec == spec;
      assert MayEnter(w, c, key);
    }
  }

  /** Without new calls, an evicted key stays out, or comes back from what was pending. */
  lemma {:induction false} BackOnlyFromPending(p: Run, r: Run, key: string)
    requires Legal(p) && Legal(r) && WithoutCalls(p, r) && key !in After(p).entries
    ensures After(r).hash == After(p).hash
    ensures forall spec :: Pending(After(r), key, spec) ==> Pending(After(p), key, spec)
    ensures key in After(r).entries ==>
      exists spec :: Pending(After(p), key, spec) && After(p).hash(spec) == After(r).entries[key].specHash
  {
    if r != p {
      BackOnlyFromPending(p, r.before, key);
      var w, e := After(r.before), r.event;
      forall spec | Pending(After(r), key, spec) ensures Pending(After(p), key, spec) {
        PendingStep(w, e, key, spec);
      }
      if e.Fetch? && e.key == key {
        assert Pending(w, key, w.flights[key].spec);
      }
    }
  }

  /** r carries p on without a new call, to where the key is cached for a spec with this hash. */
  ghost predicate BringsBack(p: Run, r: Run, key: string, specHash: string) {
    Legal(r) && WithoutCalls(p, r) && key in After(r).entries && After(r).entries[key].specHash == specHash
  }

  lemma PendingBringsBack(p: Run, key: string, spec: IdentitySpec) returns (r: Run)
    requires Legal(p) && Pending(After(p), key, spec)
    ensures BringsBack(p, r, key, After(p).hash(spec))
  {
    if MayFetch(After(p), key) && After(p).flights[key].spec == spec {
      FlightCompletes(p, key);
      r := Completed(p, key);
    } else {
      var c :| MayEnter(After(p), c, key) && After(p).callers[c].spec == spec;
      r := EnteringCompletes(p, c, key);
    }
  }

  /** An eviction leaves what is pending. */
  lemma EvictionLeavesPending(w: World, ns: string, n: string, spec: IdentitySpec)
    ensures Pending(Step(w, Evict(ns, n)), CacheKey(ns, n), spec) <==> Pending(w, CacheKey(ns, n), spec)
  {
    var key, w' := CacheKey(ns, n), Step(w, Evict(ns, n));
    assert MayFetch(w', key) <==> MayFetch(w, key);
    assert forall c :: MayEnter(w', c, key) <==> MayEnter(w, c, key);
  }

  /** A spec with this hash is pending for the key. */
  ghost predicate PendingWith(w: World, key: string, specHash: string) {
    exists spec :: Pending(w, key, spec) && w.hash(spec) == specHash
  }

  ghost predicate ComesBack(p: Run, key: string, specHash: string) {
    exists r :: BringsBack(p, r, key, specHash)
  }

  /** When an eviction does not last, exactly: without any new call the entry can come back, built from a spec with
      a given hash, if and only if at the eviction a flight for the key was under way on such a spec, or a call with
      such a spec had missed the fast path and not entered yet; either spec naming a provider there is. */
  lemma EvictionIsUndoneExactlyByPending(r: Run, ns: string, n: string, specHash: string)
    requires Legal(r)
    ensures ComesBack(Then(r, Evict(ns, n)), CacheKey(ns, n), specHash)
      <==> PendingWith(After(r), CacheKey(ns, n), specHash)
  {
    var key, evicted := CacheKey(ns, n), Then(r, Evict(ns, n));
    assert Legal(evicted);
    if ComesBack(evicted, key, specHash) {
      var r' :| BringsBack(evicted, r', key, specHash);
      BackOnlyFromPending(evicted, r', key);
      var spec :| Pending(After(evicted), key, spec) && After(evicted).hash(spec) == specHash;
      EvictionLeavesPending(After(r), ns, n, spec);
    }
    if PendingWith(After(r), key, specHash) {
      var spec :| Pending(After(r), key, spec) && After(r).hash(spec) == specHash;
      EvictionLeavesPending(After(r), ns, n, spec);
      var r' := PendingBringsBack(evicted, key, spec);
    }
  }

  /** In terms of what is under way: a flight, or a call that has missed and not entered yet. */
  lemma EvictionIsUndoneExactlyByOlderCalls(r: Run, ns: string, n: string)
    requires Legal(r)
    ensures (exists specHash :: ComesBack(Then(r, Evict(ns, n)), CacheKey(ns, n), specHash))
      <==> MayFetch(After(r), CacheKey(ns, n)) || exists c :: MayEnter(After(r), c, CacheKey(ns, n))
  {
    var w, key := After(r), CacheKey(ns, n);
    forall specHash
      ensures ComesBack(Then(r, Evict(ns, n)), key, specHash) <==> PendingWith(w, key, specHash)
    {
      EvictionIsUndoneExactlyByPending(r, ns, n, specHash);
    }
    if MayFetch(w, key) {
      assert Pending(w, key, w.flights[key].spec) && PendingWith(w, key, w.hash(w.flights[key].spec));
    } else if c :| MayEnter(w, c, key) {
      assert Pending(w, key, w.callers[c].spec) && PendingWith(w, key, w.hash(w.callers[c].spec));
    }
  }

  /** A call and its joining the flight for its cluster, then the provider's answer and the landing. */
  function JoinedFlight(r: Run, c: nat, ns: string, n: string, spec: IdentitySpec, fetch: Event): Run {
    Then(Then(Then(Then(r, Call(c, ns, n, spec)), Enter(c)), fetch), Land(CacheKey(ns, n)))
  }

  /** A fetch, and the landing that gives it to a waiting call. */
  lemma FetchedAndLanded(r: Run, c: nat, fetch: Event)
    requires Legal(r) && fetch.Fetch? && Enabled(After(r), fetch)
    requires c in After(r).callers && After(r).callers[c].Waiting? && After(r).callers[c].key == fetch.key
    ensures
      var w, r' := After(r), Then(Then(r, fetch), Land(fetch.key));
      && Legal(r') && c in After(r').callers
      && After(r').callers[c] == Answered(fetch.key, w.callers[c].spec, w.callers[c].path,
                                          Handed(w, fetch.key, fetch.token), w.now)
  {
    var fetched := Then(r, fetch);
    assert Legal(fetched) && After(fetched).callers == After(r).callers;
    assert Legal(Then(fetched, Land(fetch.key)));
  }

  /** A call with a spec newer than the running flight's misses, joins, and is given the older spec's config. */
  lemma JoinedAcrossASpecChange(r: Run, c: nat, ns: string, n: string, spec: IdentitySpec, fetch: Event)
    requires Legal(r) && c !in After(r).callers
    requires fetch.Fetch? && fetch.key == CacheKey(ns, n) && Enabled(After(r), fetch)
    requires CacheKey(ns, n) in After(r).entries ==>
      !Reusable(After(r).entries[CacheKey(ns, n)], After(r).hash(spec), After(r).now)
    ensures
      var r', older := JoinedFlight(r, c, ns, n, spec, fetch), After(r).flights[CacheKey(ns, n)].spec;
      && Legal(r') && c in After(r').callers && After(r').callers[c].Answered?
      && After(r').callers[c].spec == spec
      && After(r').callers[c].path.Joined? && After(r').callers[c].path.with == older
      && After(r').callers[c].config.FromIdentity? && After(r').callers[c].config.endpoint == older.endpoint
  {
    var w, key := After(r), CacheKey(ns, n);
    var called := Then(r, Call(c, ns, n, spec));
    assert Legal(called) && After(called) == w.(callers := w.callers[c := Missed(key, ns, spec)]);
    var entered := Then(called, Enter(c));
    assert Legal(entered);
    var path := Joined(w.flights[key].leader, w.flights[key].spec);
    assert After(entered) == w.(callers := w.callers[c := Waiting(key, spec, path)]);
    FetchedAndLanded(entered, c, fetch);
  }

  ghost predicate Continues(p: Run, r: Run) {
    r == p || (r.Then? && Continues(p, r.before))
  }

  /** A call that has joined a flight never leads one. */
  lemma {:induction false} JoinersNeverLead(p: Run, r: Run, c: nat)
    requires Legal(p) && Legal(r) && Continues(p, r) && c in After(p).callers
    requires After(p).callers[c].Waiting? && After(p).callers[c].path.Joined?
    ensures c in After(r).callers && !After(r).callers[c].Missed?
    ensures (After(r).callers[c].Waiting? || After(r).callers[c].Answered?) ==> After(r).callers[c].path.Joined?
  {
    if r != p {
      JoinersNeverLead(p, r.before, c);
    }
  }

  /** Who asks the provider, exactly: a call that has missed the fast path and now enters can come to ask the
      provider if and only if it finds no flight for its cluster. What the cache holds by then makes no difference:
      the fast path is not tried again. */
  lemma AsksExactlyWithoutAFlight(r: Run, c: nat)
    requires Legal(r) && c in After(r).callers && After(r).callers[c].Missed?
    requires After(r).callers[c].spec.provider in PROVIDERS
    ensures (exists r' :: Legal(r') && Continues(Then(r, Enter(c)), r') && Asked(After(r'), c))
      <==> After(r).callers[c].key !in After(r).flights
  {
    var entered := Then(r, Enter(c));
    assert Legal(entered);
    if After(r).callers[c].key !in After(r).flights {
      FlightCompletes(entered, After(r).callers[c].key);
    } else {
      forall r' | Legal(r') && Continues(entered, r') ensures !Asked(After(r'), c) {
        JoinersNeverLead(entered, r', c);
        AlwaysTraced(r');
      }
    }
  }

  /** The call has led a provider call. */
  ghost predicate Asked(w: World, c: nat) {
    exists i :: i in w.issues && i.leader == c
  }

  /** A call nobody overlaps: a hit, or a flight of its own that the provider answers or refuses. */
  ghost function Undisturbed(
    r: Run, c: nat, env: Env, ns: string, n: string, spec: IdentitySpec, answer: ProviderAnswer): Run
    requires Legal(r)
  {
    var key, called := CacheKey(ns, n), Then(r, Call(c, ns, n, spec));
    if key in After(r).entries && Reusable(After(r).entries[key], After(r).hash(spec), After(r).now) then called
    else Then(Ended(Then(called, Enter(c)), key, env, ns, spec, answer), Land(key))
  }

  /** The flight runs to its end. */
  function Ended(r: Run, key: string, env: Env, ns: string, spec: IdentitySpec, answer: ProviderAnswer): Run {
    if Fetched(env, ns, spec, answer).Ok? then
      Then(Then(r, ReadCa(key, env)), Fetch(key, answer.token, answer.expiresAt))
    else Then(r, Break(key))
  }

  lemma EntersAlone(r: Run, c: nat, ns: string, n: string, spec: IdentitySpec)
    requires Legal(r) && c !in After(r).callers && CacheKey(ns, n) !in After(r).flights
    requires CacheKey(ns, n) in After(r).entries ==>
      !Reusable(After(r).entries[CacheKey(ns, n)], After(r).hash(spec), After(r).now)
    ensures
      var w, key, entered := After(r), CacheKey(ns, n), Then(Then(r, Call(c, ns, n, spec)), Enter(c));
      && Legal(entered)
      && After(entered) == w.(callers := w.callers[c := Waiting(key, spec, Led)],
                              flights := w.flights[key := Running(c, ns, spec)])
  {
    var called := Then(r, Call(c, ns, n, spec));
    assert Legal(called);
    assert After(called) == After(r).(callers := After(r).callers[c := Missed(CacheKey(ns, n), ns, spec)]);
  }

  /** The end of a flight that its leader is alone on. */
  lemma LandsAlone(r: Run, c: nat, key: string, env: Env, ns: string, spec: IdentitySpec, answer: ProviderAnswer)
    requires Legal(r) && key in After(r).flights && After(r).flights[key] == Running(c, ns, spec)
    requires c in After(r).callers && After(r).callers[c] == Waiting(key, spec, Led)
    requires answer.Token? && spec.provider == "AWS" ==> answer.expiresAt == After(r).now + EKS_TOKEN_TTL
    ensures
      var w, ended := After(r), Ended(r, key, env, ns, spec, answer);
      var r', result := Then(ended, Land(key)), Fetched(env, ns, spec, answer);
      && Legal(ended) && Legal(r') && After(r').flights == w.flights - {key} && c in After(r').callers
      && After(r').callers[c] == (
           if result.Ok? then Answered(key, spec, Led, result.value, w.now) else Failed(key, spec))
      && After(r').entries == if result.Ok? then
                                w.entries[key := Entry(result.value, answer.expiresAt, w.hash(spec))]
                              else w.entries
  {
    var w, ended := After(r), Ended(r, key, env, ns, spec, answer);
    if Fetched(env, ns, spec, answer).Ok? {
      var asking := Then(r, ReadCa(key, env));
      var ca := CaData(env, ns, spec.caSecret).value;
      assert Legal(asking) && After(asking) == w.(flights := w.flights[key := Asking(c, ns, spec, ca)]);
    }
    assert Legal(ended) && After(ended).callers == w.callers && After(ended).now == w.now;
    assert key in After(ended).flights && Over(After(ended).flights[key]);
    assert Legal(Then(ended, Land(key)));
    assert After(ended).flights - {key} == w.flights - {key};
  }

  /** A call nobody overlaps does to the cache, and returns, what the sequential function says. */
  lemma UndisturbedIsReplied(
    r: Run, c: nat, env: Env, ns: string, n: string, spec: IdentitySpec, answer: ProviderAnswer)
    requires Legal(r) && c !in After(r).callers && CacheKey(ns, n) !in After(r).flights
    requires answer.Token? && spec.provider == "AWS" ==> answer.expiresAt == After(r).now + EKS_TOKEN_TTL
    ensures
      var r', w := Undisturbed(r, c, env, ns, n, spec, answer), After(r);
      var reply := Replied(w.hash, w.entries, env, ns, n, spec, w.now, answer);
      && Legal(r') && After(r').entries == reply.entries && After(r').flights == w.flights && c in After(r').callers
      && (After(r').callers[c].Answered? <==> reply.result.Ok?)
      && (After(r').callers[c].Failed? <==> reply.result.Err?)
      && (reply.result.Ok? ==> After(r').callers[c].config == reply.result.value)
  {
    var w, key, called := After(r), CacheKey(ns, n), Then(r, Call(c, ns, n, spec));
    if key in w.entries && Reusable(w.entries[key], w.hash(spec), w.now) {
      assert Legal(called);
    } else {
      EntersAlone(r, c, ns, n, spec);
      var entered := Then(called, Enter(c));
      LandsAlone(entered, c, key, env, ns, spec, answer);
      assert After(entered).flights - {key} == w.flights;
    }
  }
}

/**
 The single-slot gateway client: one active call, one fallback, one deadline,
 and a latched cleanup proof. Clock readings, peer attestation, transports, jobs
 and permits are oracles; while one runs it may call any public operation back.

 `log` is the ghost history of the accepted calls: what each begin was given,
 how it ended, how often its job was cancelled and whether that proved cleanup.
 */
module Gateway {
  import opened Wrappers

  type Id = string

  datatype Code =
    | Authentication | Identity | InvalidRequest | InvalidResponse | Unavailable | ProviderFailed | Timeout
    | Canceled | Replay | Exhausted | Busy | Cleanup | Clock | StaleCatalog

  datatype Health = Healthy | Impaired | Down

  datatype Provider = Provider(id: Id, model: Id, enabled: bool, health: Health, capabilities: set<Id>)

  datatype Route = Host(provider: Provider, peer: Id) | Local(provider: Provider)

  datatype Request = Request(id: Id, provider: Id, model: Id, catalog: int, budget: int, service: Id)

  datatype Failure = Failure(code: Code, provider: Id, model: Id)

  datatype Value = Fail(failure: Failure) | Output

  datatype Terminal =
    | Succeeded(provider: Id, model: Id)
    | Degraded(provider: Id, model: Id, primary: Failure)
    | Failed(failures: seq<Failure>)

  datatype Call = Call(
    request: Request, route: Route, deadline: Option<int>, lastTime: Option<int>,
    job: bool, primary: Option<Failure>, cancelRequested: bool)

  // Configuration values. A manifest stands for its own digest.

  datatype Resources = Resources(ram: nat, accelerator: nat, disk: nat, cpu: nat, slots: nat)

  datatype Manifest = Manifest(provider: Provider, onHost: bool, artifact: Id, resources: Resources)

  datatype Policy = Policy(
    healthTtl: nat, allowDegraded: bool, allowFallback: bool, sharedHost: bool, sharedVm: bool,
    hostBudget: Resources, vmBudget: Resources)

  datatype Observation = Observation(status: Health, at: int)

  /** `serial` is the object identity of a staged candidate. */
  datatype Candidate = Candidate(
    serial: nat, baseline: nat, manifests: seq<Manifest>, host: Route, local: Option<Route>, policy: Policy,
    evidence: seq<Evidence>)

  datatype ReplayRun = ReplayRun(
    version: Id, source: Id, bundle: Id, pinned: bool, deterministic: bool, independent: bool,
    outcomes: map<Id, bool>, consensus: bool)

  datatype Evidence = Evidence(manifest: Manifest, bundle: Id, run: ReplayRun)

  datatype State = Active(revision: nat, candidate: Candidate) | Disabled(revision: nat, previous: Option<Candidate>)

  function Total(ms: seq<Manifest>, onHost: bool): Resources {
    if ms == [] then Resources(0, 0, 0, 0, 0)
    else
      var rest := Total(ms[1..], onHost);
      if ms[0].onHost != onHost then rest
      else Resources(
             rest.ram + ms[0].resources.ram, rest.accelerator + ms[0].resources.accelerator,
             rest.disk + ms[0].resources.disk, rest.cpu + ms[0].resources.cpu, rest.slots + ms[0].resources.slots)
  }

  predicate Fits(used: Resources, shared: bool, ceiling: Resources) {
    && used.ram + (if shared then used.accelerator else 0) <= ceiling.ram
    && used.accelerator <= ceiling.accelerator && used.disk <= ceiling.disk
    && used.cpu <= ceiling.cpu && used.slots <= ceiling.slots
  }

  predicate WithinBudgets(ms: seq<Manifest>, policy: Policy) {
    && Fits(Total(ms, true), policy.sharedHost, policy.hostBudget)
    && Fits(Total(ms, false), policy.sharedVm, policy.vmBudget)
  }

  predicate Fresh(health: map<Manifest, Observation>, m: Manifest, policy: Policy, now: int) {
    && m in health && 0 <= now - health[m].at <= policy.healthTtl
    && health[m].status != Down && (health[m].status == Impaired ==> policy.allowDegraded)
  }

  /** Position of the first manifest of this provider and model, or the length. */
  function Matching(ms: seq<Manifest>, provider: Provider): (k: nat)
    ensures k <= |ms|
    ensures forall i :: 0 <= i < k ==> !(ms[i].provider.id == provider.id && ms[i].provider.model == provider.model)
    ensures k < |ms| ==> ms[k].provider.id == provider.id && ms[k].provider.model == provider.model
  {
    if ms == [] || (ms[0].provider.id == provider.id && ms[0].provider.model == provider.model) then 0
    else 1 + Matching(ms[1..], provider)
  }

  /** Position of the first manifest of this provider identifier, or the length. */
  function Named(ms: seq<Manifest>, provider: Id): (k: nat)
    ensures k <= |ms| && (forall i :: 0 <= i < k ==> ms[i].provider.id != provider)
    ensures k < |ms| ==> ms[k].provider.id == provider
  {
    if ms == [] || ms[0].provider.id == provider then 0 else 1 + Named(ms[1..], provider)
  }

  /** The configuration a begin effect ran under. */
  datatype Authority = Authority(state: State, health: map<Manifest, Observation>, now: int)

  predicate Authorizes(a: Authority, provider: Provider, service: Id) {
    && a.state.Active?
    && var ms := a.state.candidate.manifests;
       var k := Matching(ms, provider);
       && k < |ms| && service in ms[k].provider.capabilities
       && Fresh(a.health, ms[k], a.state.candidate.policy, a.now)
       && WithinBudgets(ms, a.state.candidate.policy)
  }

  /** The permit bound to a client: none, an injected callback, or a configuration's. */
  datatype Permit = Open | Injected | Owned(config: Configuration)

  datatype Admission = Accepted | Rejected(code: Code)

  /** What a begin callback came back with. */
  datatype Begun = Threw | Refused(code: Code) | Returned

  /** A response body after decoding. */
  datatype Body = Malformed(code: Code) | Remote(code: Code) | Decoded

  /** What a job's poll came back with. */
  datatype Incoming = Pending | Raised(code: Code) | Crashed | Http(status: int, peer: Id, body: Body) | Raw(body: Body)

  /** One begin effect. `cancels` counts the cancel callbacks its job received; `closed` and `stopped` are what was
      asked of the client when it happened; `brought` is what the job's last poll came back with. */
  datatype Begin = Begin(
    host: bool, provider: Provider, service: Id, at: int, budget: int, begun: Begun, cancels: nat, proven: bool,
    authority: Option<Authority>, closed: bool, stopped: bool, peer: Option<Id>, brought: Incoming)

  /** One accepted call. `spare` says whether a local route was configured; `result` is set once, when the call ends. */
  datatype CallLog = CallLog(
    request: Request, spare: bool, deadline: Option<int>, begins: seq<Begin>, primary: Option<Failure>,
    result: Option<Terminal>)

  const HISTORY_LIMIT := 4096
  const BUDGET_LIMIT := 30000

  predicate FallsBack(code: Code) {
    code in {Unavailable, ProviderFailed, Timeout}
  }

  /** The begin holds no resource: it refused atomically, or its one cancel proved cleanup. */
  predicate Retired(b: Begin) {
    b.begun.Refused? || (b.begun.Returned? && b.cancels == 1 && b.proven)
  }

  predicate AllRetired(bs: seq<Begin>) {
    forall i :: 0 <= i < |bs| ==> Retired(bs[i])
  }

  /** Every returned job was cancelled exactly once, except a held last one: never. */
  predicate Cancelled(bs: seq<Begin>, held: bool) {
    forall i :: 0 <= i < |bs| ==> bs[i].cancels == if bs[i].begun.Returned? && !(held && i == |bs| - 1) then 1 else 0
  }

  /** The begin got exactly what was left before the one deadline, on an open client that nobody had asked to stop. */
  predicate Timed(c: CallLog, b: Begin) {
    && c.deadline.Some? && c.deadline.value - c.request.budget <= b.at < c.deadline.value
    && b.budget == c.deadline.value - b.at
    && b.service == c.request.service && !b.closed && !b.stopped
    && (!b.host ==> c.primary.Some?)
  }

  /** What a body says went wrong, if anything did. */
  function BodyFault(body: Body): Option<Code> {
    match body
    case Decoded => None
    case Malformed(code) => Some(code)
    case Remote(code) => Some(code)
  }

  /** The failure that a job's answer stands for, if it stands for one: a host answers over HTTP as the attested peer,
      a local job with a bare body. */
  function Blame(host: bool, peer: Option<Id>, incoming: Incoming): Option<Code> {
    match incoming
    case Pending => None
    case Raised(code) => Some(code)
    case Crashed => Some(ProviderFailed)
    case Raw(body) => if host then Some(InvalidResponse) else BodyFault(body)
    case Http(status, from, body) =>
      if !host then Some(InvalidResponse)
      else if peer != Some(from) then Some(Identity)
      else match status
           case 200 => BodyFault(body)
           case 401 => Some(Authentication)
           case 403 => Some(Authentication)
           case 502 => Some(Unavailable)
           case 503 => Some(Unavailable)
           case 504 => Some(Timeout)
           case _ => Some(InvalidResponse)
  }

  /** The begin's job brought an output: from a host a decoded reply with status 200 of its own peer. */
  predicate Delivered(b: Begin) {
    if b.host then b.peer.Some? && b.brought == Http(200, b.peer.value, Decoded) else b.brought == Raw(Decoded)
  }

  /** The call was interrupted, or this is exactly the failure of the begin or of the answer of its job. */
  predicate Caused(b: Begin, code: Code) {
    || code.Clock? || code.Canceled? || code.Timeout?
    || match b.begun
       case Threw => code.ProviderFailed?
       case Refused(refusal) => code == refusal
       case Returned => Blame(b.host, b.peer, b.brought) == Some(code)
  }

  /** The failures of a call: the current route's is the one that its begin caused, or its lack of cleanup, and an
      unavailable or failing host is not the end where a local route was left. */
  predicate Blamed(c: CallLog, fs: seq<Failure>) {
    var k := if c.primary.Some? then 1 else 0;
    && |fs| > k
    && (c.begins != [] && c.begins[|c.begins| - 1].host == c.primary.None? ==>
          var b := c.begins[|c.begins| - 1];
          && fs[k].provider == b.provider.id && fs[k].model == b.provider.model
          && (Caused(b, fs[k].code) || (fs[k].code.Cleanup? && !Retired(b))))
    && (c.primary.None? && c.spare ==>
          fs[|fs| - 1].code.Cleanup? || !(fs[0].code.Unavailable? || fs[0].code.ProviderFailed?))
  }

  /** The failure of a host that the call fell back from is the one its begin caused, and one of three. */
  predicate Fallen(c: CallLog) {
    c.primary.Some? ==>
      && (c.primary.value.code.Unavailable? || c.primary.value.code.ProviderFailed? || c.primary.value.code.Timeout?)
      && (c.begins != [] && c.begins[0].host ==>
            && c.primary.value.provider == c.begins[0].provider.id && c.primary.value.model == c.begins[0].provider.model
            && Caused(c.begins[0], c.primary.value.code))
  }

  /** At most one host begin, then at most one local begin, inside one deadline. */
  predicate Ordered(c: CallLog) {
    && |c.begins| <= 2
    && (forall i :: 0 <= i < |c.begins| ==> Timed(c, c.begins[i]))
    && (|c.begins| == 2 ==>
          c.begins[0].host && !c.begins[1].host && Retired(c.begins[0]) && c.begins[1].at >= c.begins[0].at)
    && Fallen(c)
  }

  /** The terminal result of a call agrees with the begins that produced it. */
  predicate Explained(c: CallLog) {
    && c.result.Some?
    && match c.result.value
       case Succeeded(p, m) =>
         && c.primary.None? && |c.begins| == 1 && c.begins[0].host
         && c.begins[0].provider.id == p && c.begins[0].provider.model == m && AllRetired(c.begins)
         && Delivered(c.begins[0])
       case Degraded(p, m, f) =>
         && c.primary == Some(f) && |c.begins| >= 1 && !c.begins[|c.begins| - 1].host
         && c.begins[|c.begins| - 1].provider.id == p && c.begins[|c.begins| - 1].provider.model == m
         && AllRetired(c.begins) && Delivered(c.begins[|c.begins| - 1])
       case Failed(fs) =>
         && 1 <= |fs| <= 3 && Blamed(c, fs)
         && (c.primary.Some? ==> |fs| >= 2 && fs[0] == c.primary.value)
         && (AllRetired(c.begins) || fs[|fs| - 1].code == Cleanup)
  }

  predicate Finished(c: CallLog) {
    Ordered(c) && Explained(c) && Cancelled(c.begins, false)
  }

  /** Every call is finished, and no two accepted the same request identifier. */
  predicate Settled(log: seq<CallLog>) {
    log == [] ||
    (var rest := log[..|log| - 1];
     Settled(rest) && Finished(log[|log| - 1]) && log[|log| - 1].request.id !in Ids(rest))
  }

  /** No begin of any of these calls left a resource unproven. */
  predicate Spotless(log: seq<CallLog>) {
    log == [] || (Spotless(log[..|log| - 1]) && AllRetired(log[|log| - 1].begins))
  }

  /** The identifiers of the calls' requests. */
  function Ids(log: seq<CallLog>): set<Id> {
    if log == [] then {} else Ids(log[..|log| - 1]) + {log[|log| - 1].request.id}
  }

  /** A call in progress and its log agree. */
  predicate Progress(c: CallLog, call: Call, catalog: int) {
    && c.result.None? && Ordered(c) && Cancelled(c.begins, call.job)
    && 1 <= c.request.budget <= BUDGET_LIMIT
    && c.request.catalog == call.request.catalog == catalog
    && c.request.service == call.request.service
    && c.primary == call.primary && c.deadline == call.deadline
    && call.route.Host? == call.primary.None?
    && (call.deadline.None? ==> call.lastTime.None? && c.begins == [] && call.request.budget == c.request.budget)
    && (call.deadline.Some? ==>
          call.lastTime.Some? && call.deadline.value - c.request.budget <= call.lastTime.value)
    && (c.begins != [] ==> c.begins[|c.begins| - 1].at <= call.lastTime.value)
  }

  /** The deadline, once fixed, stays; time does not go back. */
  predicate Later(a: Call, b: Call) {
    && (a.deadline.Some? ==> b.deadline == a.deadline)
    && (a.lastTime.Some? ==> b.lastTime.Some? && b.lastTime.value >= a.lastTime.value)
  }

  /** Host begins belong to the host route; a second begin to the local one. */
  predicate Fitting(c: CallLog, call: Call) {
    call.route.Host? ==> |c.begins| <= 1 && (|c.begins| == 1 ==> c.begins[0].host)
  }

  /** The last begin is the current route's. */
  predicate Latest(c: CallLog, call: Call) {
    && Fitting(c, call) && c.begins != []
    && c.begins[|c.begins| - 1].host == call.route.Host?
    && c.begins[|c.begins| - 1].provider == call.route.provider
    && c.begins[|c.begins| - 1].peer == PeerOf(call.route)
  }

  function PeerOf(route: Route): Option<Id> {
    if route.Host? then Some(route.peer) else None
  }

  /** What to finish a call with agrees with what its current route's begin brought, if there was one. */
  predicate Grounded(c: CallLog, call: Call, reported: Value) {
    var tried := c.begins != [] && c.begins[|c.begins| - 1].host == call.route.Host?;
    && (tried ==> Latest(c, call))
    && match reported
       case Output => tried && call.job && Delivered(c.begins[|c.begins| - 1])
       case Fail(failure) =>
         && failure == FailureOf(call, failure.code)
         && (tried ==> Caused(c.begins[|c.begins| - 1], failure.code))
  }

  /** The same begins, up to what cancelling showed. */
  predicate Remarked(a: seq<Begin>, b: seq<Begin>) {
    && |a| == |b|
    && forall i :: 0 <= i < |a| ==> b[i] == a[i].(cancels := b[i].cancels, proven := b[i].proven)
  }

  /** The last begin's job has brought nothing yet. */
  predicate Unanswered(c: CallLog) {
    c.begins != [] && c.begins[|c.begins| - 1].brought.Pending?
  }

  predicate Holds(c: CallLog, call: Call) {
    call.job && Latest(c, call) && c.begins[|c.begins| - 1].begun.Returned?
  }

  predicate Thrown(c: CallLog, call: Call) {
    !call.job && Latest(c, call) && c.begins[|c.begins| - 1].begun.Threw?
  }

  /** No route's begin is left unproven, and the current route was not attempted. */
  predicate Ready(c: CallLog, call: Call) {
    && !call.job && AllRetired(c.begins) && |c.begins| <= 1
    && (|c.begins| == 1 ==> c.begins[0].host && call.route.Local?)
  }

  function FailureOf(call: Call, code: Code): Failure {
    Failure(code, call.route.provider.id, call.route.provider.model)
  }

  /** Admission of one request by one provider, as check_provider decides it. */
  function ProviderDenial(request: Request, p: Provider, catalog: int): Option<Code> {
    if request.catalog != catalog then Some(StaleCatalog)
    else if (request.provider, request.model) != (p.id, p.model) then Some(Identity)
    else if request.service !in p.capabilities then Some(InvalidRequest)
    else if !p.enabled || p.health == Down then Some(Unavailable)
    else None
  }

  /** The mutable fields of one client. */
  datatype Client = Client(
    host: Route, local: Option<Route>, history: set<Id>, active: Option<Call>, terminal: Option<Terminal>,
    fault: Option<Code>, inside: bool, unclean: bool, configuring: bool, disabled: bool, permit: Permit,
    owner: Option<nat>)

  /** What happened: the finished calls, the one in progress, and how many results were handed out. */
  datatype Trace = Trace(log: seq<CallLog>, current: CallLog, delivered: nat)

  /** Every accepted identifier is remembered, within the admission limit. */
  predicate Past(s: Client, t: Trace) {
    && s.host.Host? && (s.local.Some? ==> s.local.value.Local?)
    && Settled(t.log) && |s.history| <= HISTORY_LIMIT
    && s.history == Ids(t.log) + (if s.active.Some? then {t.current.request.id} else {})
  }

  /** A call is in progress, outside any callback. */
  predicate Running(s: Client, t: Trace) {
    && s.active.Some? && !s.inside && t.current.deadline == s.active.value.deadline
    && s.active.value.deadline.None? == s.active.value.lastTime.None?
  }

  /** The active call matches its entry in progress. */
  predicate Tracked(s: Client, t: Trace, catalog: int) {
    && Past(s, t) && s.active.Some? && s.terminal.None? && |t.log| == t.delivered && Spotless(t.log)
    && t.current.request.id !in Ids(t.log) && !s.inside
    && Progress(t.current, s.active.value, catalog) && t.current.spare == s.local.Some?
  }

  /** No begin of the active call is unproven except possibly its last. */
  predicate Shaped(s: Client, t: Trace) {
    && s.active.Some?
    && (if s.active.value.job then s.unclean && Holds(t.current, s.active.value)
        else if s.unclean then Thrown(t.current, s.active.value)
        else AllRetired(t.current.begins) && Fitting(t.current, s.active.value))
  }

  /** The invariant between public operations. */
  predicate Sound(s: Client, t: Trace, catalog: int) {
    if s.active.Some? then
      && Tracked(s, t, catalog) && s.unclean && s.fault.None? && Holds(t.current, s.active.value) && Unanswered(t.current)
    else
      && Past(s, t) && !s.inside
      && |t.log| == t.delivered + (if s.terminal.Some? then 1 else 0)
      && (s.terminal.Some? ==> s.terminal == t.log[t.delivered].result)
      && (s.unclean ==> s.fault.Some?)
      && (!s.unclean ==> Spotless(t.log))
  }

  /** Only the signals of a re-entrant caller arrived: cancellation and closed admission. */
  predicate Signalled(s: Client, s': Client) {
    && s' == s.(active := s'.active, disabled := s'.disabled)
    && (s.disabled ==> s'.disabled)
    && s.active.Some? == s'.active.Some?
    && (s.active.Some? ==>
          && s'.active.value == s.active.value.(cancelRequested := s'.active.value.cancelRequested)
          && (s.active.value.cancelRequested ==> s'.active.value.cancelRequested)
          && (s'.disabled && !s.disabled ==> s'.active.value.cancelRequested))
  }

  /** Owner and permit stay, closed admission stays closed, and a latched fault never clears. */
  predicate Latched(s: Client, s': Client) {
    && s'.permit == s.permit && s'.owner == s.owner && s'.configuring == s.configuring
    && (s.fault.Some? ==> s'.fault.Some?) && (s.disabled ==> s'.disabled)
  }

  /** Nothing moved but the call's clock, the latched fault and a re-entrant caller's signals. */
  predicate Ticked(s: Client, t: Trace, s': Client, t': Trace) {
    && s.active.Some? && s'.active.Some?
    && s' == s.(active := s'.active, disabled := s'.disabled, fault := s'.fault)
    && (s.disabled ==> s'.disabled)
    && s'.active.value == s.active.value.(
                            cancelRequested := s'.active.value.cancelRequested,
                            deadline := s'.active.value.deadline, lastTime := s'.active.value.lastTime)
    && (s.active.value.cancelRequested ==> s'.active.value.cancelRequested)
    && (s'.disabled && !s.disabled ==> s'.active.value.cancelRequested)
    && Later(s.active.value, s'.active.value)
    && t' == t.(current := t.current.(deadline := s'.active.value.deadline))
  }

  /** What a clock reading is, and what it says of the call, given the call's state before it. */
  predicate Reading(s: Client, s': Client, now: Option<int>, code: Option<Code>) {
    && s.active.Some? && s'.active.Some?
    && var (call, call') := (s.active.value, s'.active.value);
       if now.None? || now.value < 0 || (call.lastTime.Some? && now.value < call.lastTime.value) then
         code == s'.fault == Some(Clock) && call'.deadline == call.deadline && call'.lastTime == call.lastTime
       else
         && s'.fault == s.fault && call'.lastTime == now && call'.deadline.Some?
         && (call.deadline.None? ==> call'.deadline.value == now.value + call.request.budget)
         && code == (if call'.cancelRequested then Some(Canceled)
                     else if now.value >= call'.deadline.value then Some(Timeout) else None)
  }

  predicate Regressed(call: Call, now: Option<int>) {
    now.None? || now.value < 0 || (call.lastTime.Some? && now.value < call.lastTime.value)
  }

  /** The client after one clock reading. */
  function Read(s: Client, now: Option<int>): Client
    requires s.active.Some?
  {
    var call := s.active.value;
    if Regressed(call, now) then s.(fault := Some(Clock))
    else
      var deadline := if call.deadline.None? then now.value + call.request.budget else call.deadline.value;
      s.(active := Some(call.(lastTime := now, deadline := Some(deadline))))
  }

  function Stopped(s: Client, now: Option<int>): Option<Code>
    requires s.active.Some?
  {
    var call := Read(s, now).active.value;
    if Regressed(s.active.value, now) then Some(Clock)
    else if call.cancelRequested then Some(Canceled)
    else if now.value >= call.deadline.value then Some(Timeout)
    else None
  }

  lemma ReadTicks(s: Client, s1: Client, t: Trace, now: Option<int>)
    requires Running(s, t) && Signalled(s, s1)
    ensures var (s', t') := (Read(s1, now), t.(current := t.current.(deadline := Read(s1, now).active.value.deadline)));
            && Running(s', t') && Ticked(s, t, s', t') && Reading(s, s', now, Stopped(s1, now))
            && Latched(s, s') && s'.active.value.route == s.active.value.route
  {
  }

  lemma ReadKeeps(s: Client, s1: Client, t: Trace, now: Option<int>, catalog: int)
    requires Running(s, t) && Tracked(s, t, catalog) && Signalled(s, s1)
    ensures var (s', t') := (Read(s1, now), t.(current := t.current.(deadline := Read(s1, now).active.value.deadline)));
            && Running(s', t') && Tracked(s', t', catalog) && Ticked(s, t, s', t')
            && Reading(s, s', now, Stopped(s1, now)) && Latched(s, s')
            && s'.active.value.route == s.active.value.route
            && (Shaped(s, t) ==> Shaped(s', t'))
            && (Ready(t.current, s.active.value) ==> Ready(t'.current, s'.active.value))
  {
    hide Tracked, Shaped, Ready;
    ReadTicks(s, s1, t, now);
    TickKeeps(s, t, Read(s1, now), t.(current := t.current.(deadline := Read(s1, now).active.value.deadline)), catalog);
  }

  /** A re-entrant caller's signals leave the call's record as it was. */
  lemma SignalKeeps(s: Client, t: Trace, s': Client, catalog: int)
    requires Signalled(s, s') && s.active.Some?
    ensures Tracked(s, t, catalog) ==> Tracked(s', t, catalog)
    ensures Shaped(s, t) ==> Shaped(s', t)
    ensures Ready(t.current, s.active.value) ==> Ready(t.current, s'.active.value)
  {
  }

  /** A clock reading leaves the call's record in order. */
  lemma TickKeeps(s: Client, t: Trace, s': Client, t': Trace, catalog: int)
    requires Tracked(s, t, catalog) && Ticked(s, t, s', t')
    requires s'.active.value.deadline.None? == s'.active.value.lastTime.None?
    requires s.active.value.deadline.None? && s'.active.value.deadline.Some? ==>
               s'.active.value.deadline.value == s'.active.value.lastTime.value + s.active.value.request.budget
    ensures Tracked(s', t', catalog)
    ensures Shaped(s, t) ==> Shaped(s', t')
    ensures Ready(t.current, s.active.value) ==> Ready(t'.current, s'.active.value)
  {
    TickProgress(t.current, s.active.value, s'.active.value, catalog);
  }

  lemma TickProgress(c: CallLog, call: Call, call': Call, catalog: int)
    requires Progress(c, call, catalog)
    requires call' == call.(cancelRequested := call'.cancelRequested, deadline := call'.deadline, lastTime := call'.lastTime)
    requires Later(call, call') && call'.deadline.None? == call'.lastTime.None?
    requires call.deadline.None? && call'.deadline.Some? ==>
               call'.deadline.value == call'.lastTime.value + call.request.budget
    ensures Progress(c.(deadline := call'.deadline), call', catalog)
  {
  }

  /** What a configuration shows of itself to a begin effect. */
  datatype Standing = Standing(state: State, health: map<Manifest, Observation>)

  /** The begin ran under the configuration that owns the permit, if one does. */
  predicate Sanctioned(b: Begin, k: Option<Standing>) {
    k.Some? ==>
      && b.authority == Some(Authority(k.value.state, k.value.health, b.at))
      && Authorizes(b.authority.value, b.provider, b.service)
  }

  /** The begins of `a` are kept, up to what cancelling showed and what was still to be brought; later ones are
      sanctioned. */
  predicate Grown(a: seq<Begin>, b: seq<Begin>, k: Option<Standing>) {
    && |a| <= |b|
    && (forall i :: 0 <= i < |a| ==>
          && b[i] == a[i].(cancels := b[i].cancels, proven := b[i].proven, brought := b[i].brought)
          && (!a[i].brought.Pending? ==> b[i].brought == a[i].brought))
    && (forall i :: |a| <= i < |b| ==> Sanctioned(b[i], k))
  }

  /** The active call went on, or ended: everything that stayed as it was. */
  predicate Onward(s: Client, t: Trace, s': Client, t': Trace, k: Option<Standing>) {
    && s' == s.(active := s'.active, terminal := s'.terminal, fault := s'.fault, unclean := s'.unclean,
                disabled := s'.disabled)
    && (s.fault.Some? ==> s'.fault.Some?) && (s.disabled ==> s'.disabled)
    && t'.delivered == t.delivered
    && t'.current.request == t.current.request && t'.current.spare == t.current.spare
    && (t.current.deadline.Some? ==> t'.current.deadline == t.current.deadline)
    && (t.current.primary.Some? ==> t'.current.primary == t.current.primary)
    && Grown(t.current.begins, t'.current.begins, k)
    && t'.log == if s'.active.Some? then t.log else t.log + [t'.current]
  }

  lemma OnwardTransitive(s: Client, t: Trace, s1: Client, t1: Trace, s2: Client, t2: Trace, k: Option<Standing>)
    requires Onward(s, t, s1, t1, k) && s1.active.Some? && Onward(s1, t1, s2, t2, k)
    ensures Onward(s, t, s2, t2, k)
  {
  }

  lemma TickedIsOnward(s: Client, t: Trace, s': Client, t': Trace, k: Option<Standing>)
    requires Running(s, t) && Ticked(s, t, s', t') && (s.fault.Some? ==> s'.fault.Some?)
    ensures Onward(s, t, s', t', k)
  {
  }

  lemma TickedBegins(s: Client, t: Trace, s': Client, t': Trace)
    requires Ticked(s, t, s', t')
    ensures t'.current.begins == t.current.begins && (Unanswered(t.current) ==> Unanswered(t'.current))
  {
  }

  // Attempting a route.

  /** The request as the current route's provider gets it. */
  function Requested(call: Call): Request
    requires call.deadline.Some? && call.lastTime.Some?
  {
    call.request.(provider := call.route.provider.id, model := call.route.provider.model,
                  budget := call.deadline.value - call.lastTime.value)
  }

  predicate ServedBy(call: Call) {
    && call.request.service in call.route.provider.capabilities
    && call.route.provider.enabled && call.route.provider.health != Down
  }

  /** Time is left, it is the request's budget, and the provider serves the request. */
  predicate Launchable(call: Call) {
    && call.deadline.Some? && call.lastTime.Some? && ServedBy(call)
    && call.request.budget == call.deadline.value - call.lastTime.value > 0
  }

  lemma PreflightTick(
    s0: Client, t0: Trace, s: Client, t: Trace, now: Option<int>, stop: Option<Code>, catalog: int, k: Option<Standing>)
    requires Running(s0, t0) && Ready(t0.current, s0.active.value) && s0.fault.None? && !s0.unclean
    requires Running(s, t) && Tracked(s, t, catalog) && Ready(t.current, s.active.value)
    requires Ticked(s0, t0, s, t) && Reading(s0, s, now, stop)
    ensures Onward(s0, t0, s, t, k) && Shaped(s, t) && !s.unclean
    ensures s.active.value.route == s0.active.value.route && s.active.value.request == s0.active.value.request
    ensures s.fault.Some? ==> stop == Some(Clock)
    ensures stop.None? ==>
              s.active.value.deadline.Some? && s.active.value.lastTime.Some?
              && s.active.value.lastTime.value < s.active.value.deadline.value
  {
  }

  lemma ReadingStands(s: Client, s': Client, now: Option<int>, code: Option<Code>)
    requires Reading(s, s', now, code)
    ensures s'.active.Some? && (code.None? ==> s'.active.value.lastTime == now)
  {
  }

  lemma SignalledOnward(s: Client, t: Trace, s': Client, k: Option<Standing>)
    requires Signalled(s, s') && s.active.Some?
    ensures Onward(s, t, s', t, k)
  {
  }

  lemma LaunchKeeps(s0: Client, t0: Trace, s: Client, t: Trace, catalog: int, k: Option<Standing>)
    requires Running(s, t) && Tracked(s, t, catalog) && Shaped(s, t) && Ready(t.current, s.active.value)
    requires Onward(s0, t0, s, t, k)
    requires s.active.value.deadline.Some? && s.active.value.lastTime.Some?
    requires s.active.value.lastTime.value < s.active.value.deadline.value
    requires ServedBy(s.active.value)
    ensures var s' := s.(active := Some(s.active.value.(request := Requested(s.active.value))));
            && Running(s', t) && Tracked(s', t, catalog) && Shaped(s', t) && Ready(t.current, s'.active.value)
            && Launchable(s'.active.value) && Onward(s0, t0, s', t, k)
  {
  }

  lemma HoldingOn(s0: Client, t0: Trace, s: Client, t: Trace, now: Option<int>, failure: Option<Code>, catalog: int)
    requires Running(s0, t0) && Shaped(s0, t0) && s0.active.value.job && s0.fault.None?
    requires Tracked(s, t, catalog) && Ticked(s0, t0, s, t) && Reading(s0, s, now, failure)
    ensures failure.None? && Unanswered(t0.current) ==> Sound(s, t, catalog)
    ensures Latest(t.current, s.active.value) && s.active.value.job && t.current.begins == t0.current.begins
    ensures failure.Some? ==> Grounded(t.current, s.active.value, Fail(FailureOf(s.active.value, failure.value)))
    ensures s.fault.Some? ==> failure == Some(Clock)
  {
  }

  /** The log of a call whose current route was attempted, from this client, with this outcome. */
  function Launched(c: CallLog, call: Call, begun: Begun, authority: Option<Authority>, from: Client): CallLog
    requires call.lastTime.Some?
  {
    c.(begins := c.begins + [Begin(call.route.Host?, call.route.provider, call.request.service, call.lastTime.value,
                                   call.request.budget, begun, 0, false, authority, from.disabled,
                                   from.active.Some? && from.active.value.cancelRequested, PeerOf(call.route), Pending)])
  }

  /** Everything a call's record needs besides its own progress carries over. */
  lemma Retrack(s: Client, t: Trace, s': Client, c': CallLog, catalog: int)
    requires Tracked(s, t, catalog)
    requires s' == s.(active := s'.active, unclean := s'.unclean, disabled := s'.disabled, fault := s'.fault)
    requires s'.active.Some? && c'.request == t.current.request && c'.spare == t.current.spare && Progress(c', s'.active.value, catalog)
    ensures Tracked(s', t.(current := c'), catalog)
  {
  }

  lemma EffectDenied(s: Client, t: Trace, s1: Client, catalog: int, k: Option<Standing>)
    requires Running(s, t) && Tracked(s, t, catalog) && Ready(t.current, s.active.value) && !s.unclean
    requires Signalled(s, s1)
    ensures Running(s1, t) && Tracked(s1, t, catalog) && Shaped(s1, t) && Onward(s, t, s1, t, k) && Latched(s, s1)
    ensures Ready(t.current, s1.active.value)
  {
  }

  lemma EffectKeeps(
    s0: Client, t0: Trace, s1: Client, s2: Client, begun: Begun, catalog: int, k: Option<Standing>)
    requires Running(s0, t0) && Tracked(s0, t0, catalog) && Ready(t0.current, s0.active.value)
    requires Launchable(s0.active.value) && s0.fault.None? && !s0.unclean
    requires Signalled(s0, s1) && Signalled(s1.(unclean := true), s2)
    requires !s1.disabled && !s1.active.value.cancelRequested
    requires k.Some? ==>
               Authorizes(Authority(k.value.state, k.value.health, s0.active.value.lastTime.value),
                          s0.active.value.route.provider, s0.active.value.request.service)
    ensures s2.active.Some? && s2.active.value.lastTime == s0.active.value.lastTime && s2.active.value.lastTime.Some?
    ensures var authority := if k.Some? then Some(Authority(k.value.state, k.value.health, s0.active.value.lastTime.value))
                             else None;
            var s' := s2.(unclean := !begun.Refused?, active := Some(s2.active.value.(job := begun.Returned?)));
            var t' := t0.(current := Launched(t0.current, s2.active.value, begun, authority, s1));
            && Running(s', t') && Tracked(s', t', catalog) && Shaped(s', t') && Onward(s0, t0, s', t', k)
            && s'.fault.None? && Latched(s0, s') && s'.active.value.route == s0.active.value.route
            && Latest(t'.current, s'.active.value) && Unanswered(t'.current)
  {
    hide Progress, Settled, Spotless, Ids, Authorizes, Tracked, Ready, Latest, Shaped, Onward, Launched, AllRetired, Unanswered;
    var authority := if k.Some? then Some(Authority(k.value.state, k.value.health, s0.active.value.lastTime.value)) else None;
    var s' := s2.(unclean := !begun.Refused?, active := Some(s2.active.value.(job := begun.Returned?)));
    TrackedProgress(s0, t0, catalog);
    LaunchProgress(t0.current, s0.active.value, s'.active.value, begun, authority, s1, catalog);
    var c' := Launched(t0.current, s'.active.value, begun, authority, s1);
    LaunchedRequest(t0.current, s'.active.value, s2.active.value, begun, authority, s1);
    Retrack(s0, t0, s', c', catalog);
    LaunchedShape(s0, t0, s', begun, authority, s1, k);
  }

  lemma LaunchedRequest(c: CallLog, call: Call, call': Call, begun: Begun, authority: Option<Authority>, from: Client)
    requires call.lastTime.Some? && call' == call.(job := call'.job)
    ensures Launched(c, call', begun, authority, from) == Launched(c, call, begun, authority, from)
    ensures Launched(c, call, begun, authority, from).request == c.request
    ensures Launched(c, call, begun, authority, from).spare == c.spare
  {
  }

  lemma LaunchedBegin(c: CallLog, call: Call, begun: Begun, authority: Option<Authority>, from: Client)
    requires call.lastTime.Some?
    ensures var c' := Launched(c, call, begun, authority, from);
            && |c'.begins| == |c.begins| + 1
            && var b := c'.begins[|c.begins|];
               && b.begun == begun && b.closed == from.disabled
               && b.stopped == (from.active.Some? && from.active.value.cancelRequested)
  {
  }

  lemma LaunchedShape(
    s: Client, t: Trace, s': Client, begun: Begun, authority: Option<Authority>, from: Client, k: Option<Standing>)
    requires s.active.Some? && s'.active.Some? && s'.active.value.lastTime.Some?
    requires s' == s.(active := s'.active, unclean := !begun.Refused?, disabled := s'.disabled) && (s.disabled ==> s'.disabled)
    requires s'.active.value.job == begun.Returned?
    requires var c' := Launched(t.current, s'.active.value, begun, authority, from);
             Latest(c', s'.active.value) && (begun.Refused? ==> AllRetired(c'.begins))
    requires k.Some? ==>
               && authority == Some(Authority(k.value.state, k.value.health, s'.active.value.lastTime.value))
               && Authorizes(authority.value, s'.active.value.route.provider, s'.active.value.request.service)
    ensures var t' := t.(current := Launched(t.current, s'.active.value, begun, authority, from));
            Shaped(s', t') && Onward(s, t, s', t', k)
  {
    hide Authorizes, Retired;
  }

  lemma TrackedProgress(s: Client, t: Trace, catalog: int)
    requires Tracked(s, t, catalog)
    ensures s.active.Some? && Progress(t.current, s.active.value, catalog)
  {
  }

  lemma LaunchProgress(
    c: CallLog, call: Call, call': Call, begun: Begun, authority: Option<Authority>, from: Client, catalog: int)
    requires Progress(c, call, catalog) && Ready(c, call) && Launchable(call)
    requires from.active.Some? && !from.disabled && !from.active.value.cancelRequested
    requires call' == call.(cancelRequested := call'.cancelRequested, job := begun.Returned?)
    ensures var c' := Launched(c, call', begun, authority, from);
            && Progress(c', call', catalog) && Latest(c', call') && Unanswered(c')
            && (begun.Refused? ==> AllRetired(c'.begins))
  {
  }

  // Retiring a job.

  function Marked(c: CallLog, proven: bool): CallLog
    requires c.begins != []
  {
    var last := |c.begins| - 1;
    c.(begins := c.begins[..last] + [c.begins[last].(cancels := c.begins[last].cancels + 1, proven := proven)])
  }

  /** The call lost its job and nothing else; its last begin may be marked as cancelled. */
  predicate Retiring(s: Client, t: Trace, s': Client, t': Trace) {
    && s.active.Some? && s'.active.Some? && s'.fault == s.fault
    && s'.active.value == s.active.value.(cancelRequested := s'.active.value.cancelRequested, job := false)
    && Remarked(t.current.begins, t'.current.begins) && t'.current.primary == t.current.primary
    && (Latest(t.current, s.active.value) ==> Latest(t'.current, s'.active.value))
  }

  lemma RetireKeeps(s: Client, t: Trace, s1: Client, proven: bool, catalog: int, k: Option<Standing>)
    requires Running(s, t) && Tracked(s, t, catalog) && Shaped(s, t) && s.active.value.job
    requires Signalled(s.(active := Some(s.active.value.(job := false))), s1)
    ensures t.current.begins != []
    ensures var (s', t') := (s1.(unclean := !proven), t.(current := Marked(t.current, proven)));
            && Running(s', t') && Tracked(s', t', catalog) && Retiring(s, t, s', t') && Onward(s, t, s', t', k)
            && (proven ==> AllRetired(t'.current.begins)) && Fitting(t'.current, s'.active.value)
            && (!proven ==> Unproven(t'.current.begins))
  {
    hide Progress, Settled, Spotless, Ids, Sanctioned, Tracked;
    TrackedProgress(s, t, catalog);
    MarkProgress(t.current, s.active.value, s1.active.value, proven, catalog);
    Retrack(s, t, s1.(unclean := !proven), Marked(t.current, proven), catalog);
    MarkedBegins(t.current, s.active.value, s1.active.value, proven, k);
    hide Marked, Holds, Latest, Grown, AllRetired, Fitting, Thrown, Remarked, Unproven;
  }

  lemma MarkedBegins(c: CallLog, call: Call, call': Call, proven: bool, k: Option<Standing>)
    requires Holds(c, call) && call' == call.(cancelRequested := call'.cancelRequested, job := false)
    ensures var c' := Marked(c, proven);
            && c' == c.(begins := c'.begins) && Grown(c.begins, c'.begins, k) && Remarked(c.begins, c'.begins)
            && Latest(c', call') && Fitting(c', call') && (!proven ==> Unproven(c'.begins))
  {
    hide Sanctioned;
  }

  lemma MarkProgress(c: CallLog, call: Call, call': Call, proven: bool, catalog: int)
    requires Progress(c, call, catalog) && Holds(c, call)
    requires call' == call.(cancelRequested := call'.cancelRequested, job := false)
    ensures Progress(Marked(c, proven), call', catalog)
    ensures proven ==> AllRetired(Marked(c, proven).begins)
  {
  }

  lemma RetireNothing(s: Client, t: Trace, catalog: int, k: Option<Standing>)
    requires Running(s, t) && Tracked(s, t, catalog) && Shaped(s, t) && !s.active.value.job
    ensures Retiring(s, t, s, t) && Onward(s, t, s, t, k) && Fitting(t.current, s.active.value)
    ensures !s.unclean ==> AllRetired(t.current.begins)
  {
  }

  lemma UncleanKeeps(s0: Client, t0: Trace, s: Client, t: Trace, unclean: bool, catalog: int, k: Option<Standing>)
    requires Running(s, t) && Tracked(s, t, catalog) && Retiring(s0, t0, s, t) && Onward(s0, t0, s, t, k)
    ensures var s' := s.(unclean := unclean);
            Running(s', t) && Tracked(s', t, catalog) && Retiring(s0, t0, s', t) && Onward(s0, t0, s', t, k)
  {
  }

  // Ending a call.

  predicate Unproven(bs: seq<Begin>) {
    bs != [] && !bs[|bs| - 1].proven && bs[|bs| - 1].begun.Returned?
  }

  /** The job is retired and time was read once more: all a verdict depends on. */
  predicate Wound(
    s: Client, t: Trace, s': Client, t': Trace, reported: Value, clean: bool, interrupted: Option<Code>)
  {
    && s.active.Some? && s'.active.Some? && !s'.active.value.job
    && s'.active.value.route == s.active.value.route && s'.active.value.primary == s.active.value.primary
    && s'.unclean == !clean && Fitting(t'.current, s'.active.value)
    && (clean ==> AllRetired(t'.current.begins))
    && (reported.Fail? && reported.failure.code == Cleanup ==> !clean)
    && (interrupted.None? ==> s'.fault == s.fault)
    && (interrupted.Some? ==> interrupted.value.Clock? || interrupted.value.Canceled? || interrupted.value.Timeout?)
    && (s.active.value.job && reported.Output? && !clean ==> Unproven(t'.current.begins))
    && Remarked(t.current.begins, t'.current.begins)
    && (Latest(t.current, s.active.value) ==> Latest(t'.current, s'.active.value))
  }

  /** The job is retired, and how cleanly is told. */
  predicate Parted(s: Client, t: Trace, s': Client, t': Trace, reported: Value, clean: bool) {
    && Retiring(s, t, s', t') && Fitting(t'.current, s'.active.value) && !s'.active.value.job
    && (clean ==> AllRetired(t'.current.begins)) && s'.unclean == !clean
    && (reported.Fail? && reported.failure.code == Cleanup ==> !clean)
    && (s.active.value.job && reported.Output? && !clean ==> Unproven(t'.current.begins))
  }

  lemma WoundUp(
    s: Client, t: Trace, s2: Client, t1: Trace, s3: Client, t3: Trace, reported: Value, clean: bool,
    now: Option<int>, code: Option<Code>)
    requires Parted(s, t, s2, t1, reported, clean)
    requires Ticked(s2, t1, s3, t3) && Reading(s2, s3, now, code)
    ensures Wound(s, t, s3, t3, reported, clean, code)
  {
  }

  lemma Winding(s: Client, s2: Client, s3: Client)
    ensures Latched(s, s2) && Latched(s2, s3) ==> Latched(s, s3)
    ensures Quietly(s2, s3) ==> s3.local == s2.local && s3.active.Some? && s2.active.Some?
                                && s3.active.value.primary == s2.active.value.primary
  {
  }

  /** How the call ends, or None when it falls back to the local route. */
  function Verdict(s: Client, reported: Value, clean: bool, interrupted: Option<Code>): Option<Terminal>
    requires s.active.Some?
  {
    var call := s.active.value;
    var value := if interrupted.Some? then Fail(FailureOf(call, interrupted.value)) else reported;
    var preceding := if call.primary.None? then [] else [call.primary.value];
    if !clean then
      Some(Failed(preceding + (if value.Fail? then [value.failure] else []) + [FailureOf(call, Cleanup)]))
    else if value.Fail? then
      if call.route.Host? && s.local.Some? && interrupted.None? && FallsBack(value.failure.code) then None
      else Some(Failed(preceding + [value.failure]))
    else if call.primary.None? then Some(Succeeded(call.route.provider.id, call.route.provider.model))
    else Some(Degraded(call.route.provider.id, call.route.provider.model, call.primary.value))
  }

  /** A call falls back exactly when the host failed cleanly in one of three ways, uninterrupted, and a local route
      is left; it succeeds exactly with an uninterrupted output and proven cleanup; all its failures are told. */
  lemma VerdictMeans(s: Client, reported: Value, clean: bool, interrupted: Option<Code>)
    requires s.active.Some?
    ensures var (call, verdict) := (s.active.value, Verdict(s, reported, clean, interrupted));
            && (verdict.None? <==>
                  && clean && interrupted.None? && call.route.Host? && s.local.Some? && reported.Fail?
                  && (reported.failure.code.Unavailable? || reported.failure.code.ProviderFailed? || reported.failure.code.Timeout?))
            && (verdict.Some? && !verdict.value.Failed? <==> clean && interrupted.None? && reported.Output?)
            && (verdict.Some? && verdict.value.Succeeded? ==>
                  call.primary.None? && verdict.value == Succeeded(call.route.provider.id, call.route.provider.model))
            && (verdict.Some? && verdict.value.Degraded? ==>
                  call.primary == Some(verdict.value.primary)
                  && verdict.value.provider == call.route.provider.id && verdict.value.model == call.route.provider.model)
            && (verdict.Some? && verdict.value.Failed? ==>
                  verdict.value.failures ==
                  (if call.primary.Some? then [call.primary.value] else [])
                  + (if interrupted.Some? then [FailureOf(call, interrupted.value)]
                     else if reported.Fail? then [reported.failure] else [])
                  + (if clean then [] else [FailureOf(call, Cleanup)]))
  {
  }

  lemma VerdictSame(s: Client, s': Client, reported: Value, clean: bool, interrupted: Option<Code>)
    requires s.active.Some? && s'.active.Some?
    ensures s'.active.value.route == s.active.value.route && s'.active.value.primary == s.active.value.primary
            && s'.local == s.local ==>
              Verdict(s', reported, clean, interrupted) == Verdict(s, reported, clean, interrupted)
  {
  }

  lemma EndSound(
    s0: Client, t0: Trace, s: Client, t: Trace, reported: Value, clean: bool, interrupted: Option<Code>,
    catalog: int, k: Option<Standing>)
    requires Running(s, t) && Tracked(s, t, catalog) && Wound(s0, t0, s, t, reported, clean, interrupted)
    requires Onward(s0, t0, s, t, k)
    requires s0.active.Some? && Grounded(t0.current, s0.active.value, reported)
    requires Verdict(s, reported, clean, interrupted).Some?
    ensures var result := Verdict(s, reported, clean, interrupted);
            var c := t.current.(result := result);
            var s' := s.(active := None, terminal := result, fault := if clean then s.fault else Some(Cleanup));
            Sound(s', t.(current := c, log := t.log + [c]), catalog)
            && Onward(s0, t0, s', t.(current := c, log := t.log + [c]), k)
  {
    hide Progress, Settled, Spotless, Ids, Authorizes, Tracked, Verdict, Finished, Sound;
    var result := Verdict(s, reported, clean, interrupted);
    EndExplained(s0, t0, s, t, reported, clean, interrupted, catalog);
    EndRecorded(s, t, result.value, clean, catalog);
  }

  lemma EndRecorded(s: Client, t: Trace, result: Terminal, clean: bool, catalog: int)
    requires Tracked(s, t, catalog) && Finished(t.current.(result := Some(result)))
    requires s.unclean == !clean && (clean ==> AllRetired(t.current.begins))
    ensures var c := t.current.(result := Some(result));
            var s' := s.(active := None, terminal := Some(result), fault := if clean then s.fault else Some(Cleanup));
            Sound(s', t.(current := c, log := t.log + [c]), catalog)
  {
  }

  lemma EndExplained(
    s0: Client, t0: Trace, s: Client, t: Trace, reported: Value, clean: bool, interrupted: Option<Code>, catalog: int)
    requires Running(s, t) && Tracked(s, t, catalog) && Wound(s0, t0, s, t, reported, clean, interrupted)
    requires s0.active.Some? && Grounded(t0.current, s0.active.value, reported)
    requires Verdict(s, reported, clean, interrupted).Some?
    ensures Finished(t.current.(result := Verdict(s, reported, clean, interrupted)))
  {
    var result := Verdict(s, reported, clean, interrupted).value;
    if result.Failed? {
      EndBlamed(s0, t0, s, t, reported, clean, interrupted, catalog);
    } else {
      EndDelivered(s0, t0, s, t, reported, clean, interrupted, catalog);
    }
    OrderedStill(t.current, Some(result));
    VerdictMeans(s, reported, clean, interrupted);
    VerdictShape(s, reported, clean, interrupted);
    hide Verdict;
    hide Grounded, Blamed, Delivered, Caused, Fallen, Remarked, Ordered;
  }

  lemma VerdictShape(s: Client, reported: Value, clean: bool, interrupted: Option<Code>)
    requires s.active.Some?
    ensures var (call, verdict) := (s.active.value, Verdict(s, reported, clean, interrupted));
            verdict.Some? && verdict.value.Failed? ==>
              var fs := verdict.value.failures;
              && 1 <= |fs| <= 3 && (call.primary.Some? ==> |fs| >= 2 && fs[0] == call.primary.value)
              && (!clean ==> fs[|fs| - 1].code == Cleanup)
  {
  }

  lemma OrderedStill(c: CallLog, result: Option<Terminal>)
    ensures Ordered(c) ==> Ordered(c.(result := result))
  {
  }

  lemma EndBlamed(
    s0: Client, t0: Trace, s: Client, t: Trace, reported: Value, clean: bool, interrupted: Option<Code>, catalog: int)
    requires Running(s, t) && Tracked(s, t, catalog) && Wound(s0, t0, s, t, reported, clean, interrupted)
    requires s0.active.Some? && Grounded(t0.current, s0.active.value, reported)
    requires Verdict(s, reported, clean, interrupted).Some? && Verdict(s, reported, clean, interrupted).value.Failed?
    ensures var verdict := Verdict(s, reported, clean, interrupted);
            Blamed(t.current.(result := verdict), verdict.value.failures)
  {
    hide Ordered, Cancelled, Settled, Spotless, Ids, Blame, AllRetired;
  }

  lemma EndDelivered(
    s0: Client, t0: Trace, s: Client, t: Trace, reported: Value, clean: bool, interrupted: Option<Code>, catalog: int)
    requires Running(s, t) && Tracked(s, t, catalog) && Wound(s0, t0, s, t, reported, clean, interrupted)
    requires s0.active.Some? && Grounded(t0.current, s0.active.value, reported)
    requires Verdict(s, reported, clean, interrupted).Some? && !Verdict(s, reported, clean, interrupted).value.Failed?
    ensures Delivered(t.current.begins[|t.current.begins| - 1]) && Latest(t.current, s.active.value)
  {
    hide Ordered, Cancelled, Settled, Spotless, Ids, Blame, AllRetired;
  }

  lemma FallbackReady(
    s0: Client, t0: Trace, s: Client, t: Trace, reported: Value, clean: bool, interrupted: Option<Code>,
    catalog: int, k: Option<Standing>)
    requires Running(s, t) && Tracked(s, t, catalog) && Wound(s0, t0, s, t, reported, clean, interrupted)
    requires Onward(s0, t0, s, t, k) && (s0.fault.Some? ==> reported.Fail? && !FallsBack(reported.failure.code))
    requires s0.active.Some? && Grounded(t0.current, s0.active.value, reported)
    requires Verdict(s, reported, clean, interrupted).None?
    ensures reported.Fail? && s.local.Some? && s.local.value.Local? && s.active.value.route.Host?
    ensures FallsBack(reported.failure.code)
    ensures var s' := s.(active := Some(s.active.value.(primary := Some(reported.failure), route := s.local.value)));
            var t' := t.(current := t.current.(primary := Some(reported.failure)));
            && Running(s', t') && Tracked(s', t', catalog) && Ready(t'.current, s'.active.value)
            && s'.fault.None? && !s'.unclean && Onward(s0, t0, s', t', k)
  {
    hide Progress, Settled, Spotless, Ids, Authorizes, Tracked;
    TrackedProgress(s, t, catalog);
    assert s.local.value.Local? by { LocalRoute(s, t, catalog); }
    var call' := s.active.value.(primary := Some(reported.failure), route := s.local.value);
    FallbackProgress(t.current, s.active.value, call', catalog);
    Retrack(s, t, s.(active := Some(call')), t.current.(primary := Some(reported.failure)), catalog);
  }

  lemma LocalRoute(s: Client, t: Trace, catalog: int)
    requires Tracked(s, t, catalog) && s.local.Some?
    ensures s.local.value.Local?
  {
  }

  lemma FallbackProgress(c: CallLog, call: Call, call': Call, catalog: int)
    requires Progress(c, call, catalog) && AllRetired(c.begins) && !call.job && call.route.Host? && Fitting(c, call)
    requires call'.primary.Some? && FallsBack(call'.primary.value.code) && call'.route.Local?
    requires Fallen(c.(primary := call'.primary))
    requires call' == call.(primary := call'.primary, route := call'.route)
    ensures Progress(c.(primary := call'.primary), call', catalog) && Ready(c.(primary := call'.primary), call')
    ensures c.primary.None?
  {
  }

  // The public operations.

  function StartDenial(s: Client, request: Request, catalog: int): Option<Code> {
    if s.active.Some? || s.terminal.Some? || s.inside || s.configuring then Some(Busy)
    else if s.fault.Some? then s.fault
    else if s.disabled then Some(Canceled)
    else if !(1 <= request.budget <= BUDGET_LIMIT) then Some(InvalidRequest)
    else if request.catalog != catalog then Some(StaleCatalog)
    else if (request.provider, request.model) != (s.host.provider.id, s.host.provider.model) then Some(Identity)
    else if request.id in s.history then Some(Replay)
    else if |s.history| >= HISTORY_LIMIT then Some(Exhausted)
    else None
  }

  function Opened(s: Client, request: Request): Client {
    s.(history := s.history + {request.id}, active := Some(Call(request, s.host, None, None, false, None, false)))
  }

  function Opening(s: Client, t: Trace, request: Request): Trace {
    t.(current := CallLog(request, s.local.Some?, None, [], None, None))
  }

  lemma OpenKeeps(s: Client, t: Trace, request: Request, catalog: int)
    requires Sound(s, t, catalog) && StartDenial(s, request, catalog).None?
    ensures var (s', t') := (Opened(s, request), Opening(s, t, request));
            && Running(s', t') && Tracked(s', t', catalog) && Ready(t'.current, s'.active.value)
            && s'.fault.None? && !s'.unclean
  {
  }

  lemma SoundHolding(s: Client, t: Trace, catalog: int)
    requires Sound(s, t, catalog) && s.active.Some?
    ensures Running(s, t) && Tracked(s, t, catalog) && Shaped(s, t) && Latest(t.current, s.active.value)
    ensures s.active.value.job && s.fault.None? && Unanswered(t.current)
  {
  }

  lemma TrackedCatalog(s: Client, t: Trace, catalog: int)
    requires Tracked(s, t, catalog)
    ensures s.active.Some? && s.active.value.request.catalog == catalog
  {
  }

  lemma SoundActive(s: Client, t: Trace, catalog: int)
    requires Sound(s, t, catalog) && s.active.Some?
    ensures s.active.value.job && s.terminal.None?
  {
  }

  lemma SignalSound(s: Client, t: Trace, s': Client, catalog: int)
    requires Sound(s, t, catalog) && s.active.Some? && Signalled(s.(disabled := s'.disabled), s')
    ensures Sound(s', t, catalog) && Running(s', t) && Tracked(s', t, catalog) && Shaped(s', t)
    ensures Latest(t.current, s'.active.value) && s'.active.value.job && s'.fault.None? && Unanswered(t.current)
  {
  }

  lemma RequestOnward(s: Client, t: Trace, s': Client, k: Option<Standing>)
    requires s.active.Some? && s' == s.(active := Some(s.active.value.(cancelRequested := true)))
    ensures Onward(s, t, s', t, k)
  {
  }

  /** The active call went on; a result that was waiting or came of it is handed out, once. */
  predicate Polled(s: Client, t: Trace, s': Client, t': Trace, result: Option<Terminal>, k: Option<Standing>) {
    && (var (s1, t1) := (s'.(terminal := result), t'.(delivered := t.delivered));
        if s.active.Some? then Onward(s, t, s1, t1, k) else s1 == s && t1 == t)
    && s'.terminal.None?
    && t'.delivered == t.delivered + (if result.Some? then 1 else 0)
    && (result.Some? ==> |t'.log| == t'.delivered && result == t'.log[t.delivered].result)
  }

  lemma HandOut(s0: Client, t0: Trace, s: Client, t: Trace, catalog: int, k: Option<Standing>)
    requires Sound(s, t, catalog)
    requires if s0.active.Some? then Onward(s0, t0, s, t, k) else s == s0 && t == t0
    ensures var (s', t') := (s.(terminal := None), if s.terminal.Some? then t.(delivered := t.delivered + 1) else t);
            Sound(s', t', catalog) && Polled(s0, t0, s', t', s.terminal, k)
  {
  }

  lemma DisableKeeps(s: Client, t: Trace, catalog: int)
    ensures Sound(s, t, catalog) ==> Sound(s.(disabled := true), t, catalog)
  {
  }

  /** The log of a call whose job was polled. */
  function Brought(c: CallLog, incoming: Incoming): CallLog
    requires c.begins != []
  {
    var last := |c.begins| - 1;
    c.(begins := c.begins[..last] + [c.begins[last].(brought := incoming)])
  }

  lemma BroughtKeeps(s: Client, t: Trace, incoming: Incoming, catalog: int, k: Option<Standing>)
    requires Running(s, t) && Tracked(s, t, catalog) && Shaped(s, t) && s.active.value.job && Unanswered(t.current)
    ensures var t' := t.(current := Brought(t.current, incoming));
            && Running(s, t') && Tracked(s, t', catalog) && Shaped(s, t') && Onward(s, t, s, t', k)
            && Latest(t'.current, s.active.value)
            && |t'.current.begins| == |t.current.begins| > 0
            && t'.current.begins[|t'.current.begins| - 1].brought == incoming && (incoming.Pending? ==> Unanswered(t'.current))
            && t'.current.begins[|t'.current.begins| - 1].begun.Returned?
  {
    hide Progress, Settled, Spotless, Ids, Sanctioned, Tracked;
    TrackedProgress(s, t, catalog);
    BroughtProgress(t.current, s.active.value, incoming, catalog);
    Retrack(s, t, s, Brought(t.current, incoming), catalog);
    BroughtBegins(t.current, s.active.value, incoming, k);
    hide Brought, Holds, Latest, Grown, AllRetired, Unanswered, Fitting, Thrown;
  }

  lemma BroughtBegins(c: CallLog, call: Call, incoming: Incoming, k: Option<Standing>)
    requires Holds(c, call) && Unanswered(c)
    ensures var c' := Brought(c, incoming);
            && c' == c.(begins := c'.begins) && Grown(c.begins, c'.begins, k) && Latest(c', call)
            && |c'.begins| == |c.begins| > 0 && c'.begins[|c'.begins| - 1].begun.Returned?
            && c'.begins[|c'.begins| - 1].brought == incoming && (incoming.Pending? ==> Unanswered(c'))
  {
    hide Sanctioned;
  }

  lemma BroughtProgress(c: CallLog, call: Call, incoming: Incoming, catalog: int)
    requires Progress(c, call, catalog) && Holds(c, call)
    ensures Progress(Brought(c, incoming), call, catalog) && Holds(Brought(c, incoming), call)
  {
  }

  /** A route that was not attempted gives no grounds against a failure, nor does an interruption of one that was. */
  lemma ReadyGrounds(c: CallLog, call: Call, code: Code)
    requires Ready(c, call)
    ensures Grounded(c, call, Fail(FailureOf(call, code)))
  {
  }

  lemma StopGrounds(c: CallLog, call: Call, code: Code)
    requires Latest(c, call) && (code.Clock? || code.Canceled? || code.Timeout?)
    ensures Grounded(c, call, Fail(FailureOf(call, code)))
  {
  }

  lemma BegunGrounds(c: CallLog, call: Call)
    requires Latest(c, call)
    ensures match c.begins[|c.begins| - 1].begun
            case Threw => Grounded(c, call, Fail(FailureOf(call, ProviderFailed)))
            case Refused(code) => Grounded(c, call, Fail(FailureOf(call, code)))
            case Returned => true
  {
  }

  lemma SignalRuns(s: Client, t: Trace, s': Client)
    requires Running(s, t)
    ensures Signalled(s, s)
    ensures Signalled(s, s') ==> Running(s', t) && s'.active.value.route == s.active.value.route && s'.permit == s.permit
  {
  }

  lemma SignalLatches(s: Client, s': Client)
    requires Signalled(s, s')
    ensures Latched(s, s')
  {
  }

  lemma LatchedTransitive(s: Client, s1: Client, s2: Client)
    requires Latched(s, s1) && Latched(s1, s2)
    ensures Latched(s, s2)
  {
  }

  lemma AnsweredOtherwise(call: Call, b: Begin, stop: Option<Code>)
    requires !b.brought.Raised? && !b.brought.Crashed?
    ensures stop.Some? ==> Answered(call, b, stop, Some(Fail(FailureOf(call, stop.value))))
    ensures stop.None? && b.brought.Pending? ==> Answered(call, b, stop, None)
  {
  }

  lemma LatestMeans(c: CallLog, call: Call)
    requires Latest(c, call)
    ensures c.begins != []
    ensures c.begins[|c.begins| - 1].host == call.route.Host? && c.begins[|c.begins| - 1].peer == PeerOf(call.route)
  {
  }

  /** What a look at the job comes to, given its answer and what the clock said after it. */
  predicate Answered(call: Call, b: Begin, stop: Option<Code>, value: Option<Value>) {
    var fault := Blame(b.host, b.peer, b.brought);
    if b.brought.Raised? || b.brought.Crashed? then fault.Some? && value == Some(Fail(FailureOf(call, fault.value)))
    else if stop.Some? then value == Some(Fail(FailureOf(call, stop.value)))
    else if b.brought.Pending? then value.None?
    else value == Some(if fault.Some? then Fail(FailureOf(call, fault.value)) else Output)
  }

  /** An answer of the held job is grounds for the failure it stands for, or for the output it is. */
  lemma HeardGrounds(c: CallLog, call: Call, value: Value)
    requires Latest(c, call) && call.job
    requires var b := c.begins[|c.begins| - 1];
             && b.begun.Returned? && !b.brought.Pending?
             && value == (if Blame(b.host, b.peer, b.brought).Some?
                          then Fail(FailureOf(call, Blame(b.host, b.peer, b.brought).value)) else Output)
    ensures Grounded(c, call, value) && Answered(call, c.begins[|c.begins| - 1], None, Some(value))
  {
  }

  // Whole runs.

  /** What any run keeps: ended calls, used identifiers and handed-out results; after a fault, everything. */
  predicate Evolves(s: Client, t: Trace, s': Client, t': Trace) {
    && t.log <= t'.log && t.delivered <= t'.delivered && s.history <= s'.history
    && (s.fault.Some? ==>
          && s'.fault.Some? && t'.log == t.log && s'.history == s.history
          && s'.host == s.host && s'.local == s.local && s'.permit == s.permit && s'.owner == s.owner)
  }

  lemma OnwardEvolves(s: Client, t: Trace, s': Client, t': Trace, k: Option<Standing>, catalog: int)
    requires Sound(s, t, catalog) && s.active.Some? && Onward(s, t, s', t', k)
    ensures Evolves(s, t, s', t')
  {
  }

  lemma StartEvolves(s: Client, t: Trace, request: Request, s': Client, t': Trace, k: Option<Standing>, catalog: int)
    requires StartDenial(s, request, catalog).None?
    requires Onward(Opened(s, request), Opening(s, t, request), s', t', k)
    ensures Evolves(s, t, s', t')
  {
  }

  lemma PollEvolves(s: Client, t: Trace, s': Client, t': Trace, result: Option<Terminal>, k: Option<Standing>, catalog: int)
    requires Sound(s, t, catalog) && Polled(s, t, s', t', result, k)
    ensures Evolves(s, t, s', t')
  {
  }

  /** Every ended call made at most one host begin and then at most one local one, inside one
      deadline, had every returned job cancelled exactly once, and has one explained result. */
  lemma {:induction false} CallsAccountedFor(log: seq<CallLog>)
    requires Settled(log)
    ensures forall i :: 0 <= i < |log| ==> Finished(log[i]) && log[i].request.id in Ids(log)
    ensures forall i, j :: 0 <= i < j < |log| ==> log[i].request.id != log[j].request.id
  {
    hide Finished;
    if log != [] {
      var n := |log| - 1;
      var (rest, last) := (log[..n], log[n]);
      CallsAccountedFor(rest);
      hide Settled, Ids;
      IdsGrow(log);
      forall i | 0 <= i < |log|
        ensures Finished(log[i]) && log[i].request.id in Ids(log)
      {
        assert i < n ==> rest[i] == log[i];
      }
      forall i, j | 0 <= i < j < |log|
        ensures log[i].request.id != log[j].request.id
      {
        assert rest[i] == log[i];
        assert j < n ==> rest[j] == log[j];
      }
    }
  }

  lemma IdsGrow(log: seq<CallLog>)
    requires log != []
    ensures Ids(log) == Ids(log[..|log| - 1]) + {log[|log| - 1].request.id}
    ensures Settled(log) ==> Finished(log[|log| - 1]) && log[|log| - 1].request.id !in Ids(log[..|log| - 1])
  {
    hide Finished;
  }

  lemma {:induction false} CleanupAccountedFor(log: seq<CallLog>)
    requires Spotless(log)
    ensures forall i :: 0 <= i < |log| ==> AllRetired(log[i].begins)
  {
    if log != [] {
      CleanupAccountedFor(log[..|log| - 1]);
      hide AllRetired;
    }
  }

  /** What was asked of the outside before an effect: the time, or the identity of a peer that was then accepted. */
  datatype Moment = Clocked(reading: Option<int>) | Attested(peer: Option<Id>)

  /** What is outside during an operation: anything at all, or nobody who calls back, with these answers. */
  datatype World =
    | Stormy
    | Calm(now: int, peer: Option<Id>, permits: bool, begun: Begun, reply: Incoming, proves: bool)

  /** The calm clock's reading is in time for the active call, which nobody cancelled. */
  predicate Timely(s: Client, w: World) {
    && w.Calm? && s.active.Some? && !s.active.value.cancelRequested && w.now >= 0
    && (s.active.value.lastTime.Some? ==> s.active.value.lastTime.value <= w.now)
    && (if s.active.value.deadline.Some? then w.now < s.active.value.deadline.value else s.active.value.request.budget > 0)
  }

  /** Nothing but the clock of the active call moved. */
  predicate Quietly(s: Client, s': Client) {
    && s.active.Some? && s'.active.Some? && s' == s.(active := s'.active)
    && s'.active.value == s.active.value.(deadline := s'.active.value.deadline, lastTime := s'.active.value.lastTime)
  }

  lemma TimelyCalm(s: Client, w: World)
    ensures Timely(s, w) ==> w.Calm? && s.active.Some? && !s.active.value.cancelRequested
  {
  }

  lemma RetiredTimely(s: Client, s': Client, w: World)
    requires Timely(s, w)
    requires s' == s.(unclean := s'.unclean, active := Some(s.active.value.(job := false)))
    ensures Timely(s', w) && s'.local == s.local && s'.active.value.primary == s.active.value.primary
  {
  }

  lemma ReadTimely(s: Client, w: World)
    requires Timely(s, w)
    ensures var s' := Read(s, Some(w.now));
            Timely(s', w) && Quietly(s, s') && Stopped(s, Some(w.now)).None?
  {
  }

  /** The call goes on with a job, on the route it was on. */
  predicate Underway(s: Client, s': Client) {
    && s.active.Some? && s'.active.Some? && s'.active.value.job && s'.terminal == s.terminal && s'.local == s.local
    && s'.active.value.route == s.active.value.route && s'.active.value.primary == s.active.value.primary
  }

  lemma Welcomed(s: Client, w: World)
    ensures Timely(s, w) && Welcome(s, w) ==>
              && w.Calm? && w.begun.Returned? && s.active.Some? && !s.disabled && !s.active.value.cancelRequested
              && (s.permit.Open? || (s.permit.Injected? && w.permits))
  {
  }

  lemma Admitting(s: Client, w: World, catalog: int)
    requires s.active.Some? && s.active.value.request.catalog == catalog
    requires s.active.value.deadline.Some? && s.active.value.lastTime.Some?
    ensures var call := s.active.value;
            && (ServedBy(call) <==> ProviderDenial(Requested(call), call.route.provider, catalog).None?)
            && (Welcome(s, w) ==> w.Calm? && ServedBy(call) && (call.route.Host? ==> w.peer == Some(call.route.peer)))
    ensures forall s' :: Signalled(s, s') && s'.active.Some? ==> (ServedBy(s'.active.value) <==> ServedBy(s.active.value))
  {
  }

  lemma Beginning(s: Client, s1: Client, s2: Client, w: World)
    ensures Quietly(s, s1) && Welcome(s, w) ==> Welcome(s1, w)
    ensures Requesting(s, s1) && Welcome(s, w) ==> Welcome(s1, w)
    ensures Requesting(s, s1) && Underway(s1, s2) ==> Underway(s, s2)
    ensures Quietly(s, s1) && Quietly(s1, s2) ==> Quietly(s, s2)
  {
  }

  lemma Launching(s: Client, s1: Client, s2: Client, w: World)
    requires s.active.Some?
    ensures s1 == s.(unclean := true, active := Some(s.active.value.(job := true))) ==>
              (Timely(s, w) ==> Timely(s1, w)) && (Quietly(s1, s2) ==> Underway(s, s2))
  {
  }

  /** What a verdict depends on is as it was, and the job is still held. */
  predicate Calmer(s: Client, s': Client) {
    && s.active.Some? && s'.active.Some? && s'.active.value.route == s.active.value.route && s'.local == s.local
    && s'.active.value.primary == s.active.value.primary && s'.active.value.job == s.active.value.job
    && s'.unclean == s.unclean
  }

  lemma CalmerTransitive(s: Client, s1: Client, s2: Client)
    ensures Calmer(s, s1) && Calmer(s1, s2) ==> Calmer(s, s2)
  {
  }

  lemma CalmerIs(s: Client, s': Client)
    ensures Quietly(s, s') ==> Calmer(s, s')
    ensures s.active.Some? && s == s' ==> Calmer(s, s')
  {
  }

  lemma Measuring(s: Client, s1: Client, s2: Client)
    ensures Quietly(s, s1) && Requesting(s1, s2) ==> Requesting(s, s2)
  {
  }

  /** Nothing but the clock of the active call and what is left of its budget moved. */
  predicate Requesting(s: Client, s': Client) {
    && s.active.Some? && s'.active.Some? && s' == s.(active := s'.active)
    && s'.active.value == s.active.value.(deadline := s'.active.value.deadline, lastTime := s'.active.value.lastTime,
                                          request := s'.active.value.request)
    && s'.active.value.request.service == s.active.value.request.service
  }

  /** The cleanup that a calm world lets the call come to. */
  predicate Cleans(s: Client, w: World, reported: Value)
    requires w.Calm? && s.active.Some?
  {
    && (if s.active.value.job then w.proves else !s.unclean)
    && !(reported.Fail? && reported.failure.code.Cleanup?)
  }

  /** What a calm poll hands out: nothing while the job has nothing to say, and otherwise the output, or exactly the
      failure that its answer stands for, unless the call falls back. */
  ghost predicate Heard(s: Client, w: World, going: bool, result: Option<Terminal>)
    requires w.Calm? && s.active.Some?
  {
    var (call, peer) := (s.active.value, PeerOf(s.active.value.route));
    var fault := Blame(call.route.Host?, peer, w.reply);
    var preceding := if call.primary.Some? then [call.primary.value] else [];
    if w.reply.Pending? then result.None? && going
    else if fault.None? && w.proves then
      !going && result == Some(if call.primary.None? then Succeeded(call.route.provider.id, call.route.provider.model)
                                        else Degraded(call.route.provider.id, call.route.provider.model, call.primary.value))
    else if fault.None? then !going && result == Some(Failed(preceding + [FailureOf(call, Cleanup)]))
    else
      var failure := FailureOf(call, fault.value);
      && (!w.proves || fault.value.Cleanup? ==>
            !going && result == Some(Failed(preceding + [failure] + [FailureOf(call, Cleanup)])))
      && (w.proves && !fault.value.Cleanup?
          && !(call.route.Host? && s.local.Some?
               && (fault.value.Unavailable? || fault.value.ProviderFailed? || fault.value.Timeout?)) ==>
            !going && result == Some(Failed(preceding + [failure])))
  }

  lemma HeardWaiting(s: Client, w: World, s1: Client, c: CallLog)
    requires w.Calm? && s.active.Some? && Calmer(s, s1) && Latest(c, s1.active.value)
    requires c.begins[|c.begins| - 1].brought == w.reply
    requires Answered(s1.active.value, c.begins[|c.begins| - 1], None, None)
    ensures Heard(s, w, true, None)
  {
  }

  lemma HeardOut(s: Client, w: World, s1: Client, c: CallLog, value: Value, going: bool, result: Option<Terminal>)
    requires w.Calm? && s.active.Some? && s.active.value.job && Calmer(s, s1) && Latest(c, s1.active.value)
    requires c.begins[|c.begins| - 1].brought == w.reply
    requires Answered(s1.active.value, c.begins[|c.begins| - 1], None, Some(value))
    requires var verdict := Verdict(s1, value, Cleans(s1, w, value), None); verdict.Some? ==> !going && result == verdict
    ensures Heard(s, w, going, result)
  {
    var preceding := if s.active.value.primary.Some? then [s.active.value.primary.value] else [];
    assert preceding + [] == preceding;
  }

  /** The current route's provider serves the call, a host is the peer that it should be, the permit is given, and a
      begin returns a job. */
  predicate Welcome(s: Client, w: World) {
    && w.Calm? && s.active.Some? && ServedBy(s.active.value) && !s.disabled && w.begun.Returned?
    && (s.active.value.route.Host? ==> w.peer == Some(s.active.value.route.peer))
    && (s.permit.Open? || (s.permit.Injected? && w.permits))
  }

  class GatewayClient {
    const catalogVersion: int
    var s: Client
    var world: World
    ghost var t: Trace
    ghost var moments: seq<Moment>

    ghost predicate Valid()
      reads this
    {
      !s.inside && Sound(s, t, catalogVersion)
    }

    constructor (catalogVersion: int, host: Route, local: Option<Route>)
      requires host.Host? && (local.Some? ==> local.value.Local?)
      ensures Valid() && this.catalogVersion == catalogVersion && t.log == []
      ensures s == Client(host, local, {}, None, None, None, false, false, false, false, Open, None)
    {
      this.catalogVersion := catalogVersion;
      s := Client(host, local, {}, None, None, None, false, false, false, false, Open, None);
      t := Trace([], CallLog(Request("", "", "", 0, 0, ""), false, None, [], None, None), 0);
      moments, world := [], Stormy;
    }

    ghost function Rank(): nat
      reads this
    {
      if s.active.Some? && s.active.value.route.Host? then 1 else 0
    }

    ghost function Keeper(): set<Configuration>
      reads this
    {
      if s.permit.Owned? then {s.permit.config} else {}
    }

    /** Any callback: while it runs, every public operation may be called back. */
    method Invoke()
      requires !s.inside
      modifies this`s, this`t, this`moments, Keeper()
      ensures Signalled(old(s), s) && t == old(t) && moments == old(moments)
      ensures world.Calm? ==> s == old(s)
      ensures forall c :: c in old(Keeper()) ==> unchanged(c)
      decreases 1, Rank(), 0
    {
      s := s.(inside := true);
      if world.Stormy? {
        Reenter();
      }
      s := s.(inside := false);
    }

    method Reenter()
      requires s.inside
      modifies this`s, this`t, this`moments, Keeper()
      ensures Signalled(old(s), s) && t == old(t) && moments == old(moments)
      ensures forall c :: c in old(Keeper()) ==> unchanged(c)
      decreases 0, 1, 0
    {
      var calls: nat := Oracle();
      for i := 0 to calls
        invariant Signalled(old(s), s) && t == old(t) && moments == old(moments)
        invariant forall c :: c in old(Keeper()) ==> unchanged(c)
      {
        CallBack();
      }
    }

    method CallBack()
      requires s.inside
      modifies this`s, this`t, this`moments, Keeper()
      ensures Signalled(old(s), s) && t == old(t) && moments == old(moments)
      ensures forall c :: c in old(Keeper()) ==> unchanged(c)
      decreases 0, 0, 2
    {
      var caller: Option<nat> := Oracle();
      if * {
        Cancel();
      } else if * {
        var _ := Disable(caller);
      } else if * {
        var request: Request := Oracle();
        var _ := Start(request);
      } else if * {
        var _ := Poll();
      } else if * {
        var route: Route := Oracle();
        var fallback: Option<Route> := Oracle();
        var guard: Permit := Oracle();
        var _ := Reconfigure(route, fallback, guard, caller);
      } else {
        var _ := ClaimConfiguration();
      }
    }

    /** One clock reading: fixes the deadline once, and reports why the call must stop, if it must. */
    method Interruption() returns (code: Option<Code>, ghost reading: Option<int>)
      requires Running(s, t) && Tracked(s, t, catalogVersion)
      modifies this`s, this`t, this`moments, Keeper()
      ensures Running(s, t) && Tracked(s, t, catalogVersion) && Ticked(old(s), old(t), s, t)
      ensures Shaped(old(s), old(t)) ==> Shaped(s, t)
      ensures Ready(old(t.current), old(s.active.value)) ==> Ready(t.current, s.active.value)
      ensures forall c :: c in old(Keeper()) ==> unchanged(c)
      ensures Reading(old(s), s, reading, code) && Latched(old(s), s)
      ensures moments == old(moments) + [Clocked(reading)]
      ensures s.active.value.route == old(s.active.value.route)
      ensures world.Calm? ==> reading == Some(world.now)
      ensures old(Timely(s, world)) ==> code.None? && Timely(s, world) && Quietly(old(s), s)
      decreases 1, Rank(), 1
    {
      hide Tracked, Shaped, Ready, Ticked, Read, Reading, Latched, Timely, Quietly;
      TimelyCalm(s, world);
      Invoke();
      var now: Option<int> := Oracle();
      if world.Calm? {
        now := Some(world.now);
      }
      TimelyCalm(s, world);
      if Timely(s, world) {
        ReadTimely(s, world);
      }
      reading := now;
      moments := moments + [Clocked(now)];
      ReadKeeps(old(s), s, t, now, catalogVersion);
      code := Stopped(s, now);
      s, t := Read(s, now), t.(current := t.current.(deadline := Read(s, now).active.value.deadline));
    }

    ghost function Standings(): Option<Standing>
      reads this, Keeper()
    {
      if s.permit.Owned? then Some(Standing(s.permit.config.state, s.permit.config.health)) else None
    }

    /** Cancels the held job, once, and reports whether cleanup is proven. */
    method Retire() returns (proven: bool)
      requires Running(s, t) && Tracked(s, t, catalogVersion) && Shaped(s, t)
      modifies this`s, this`t, this`moments, Keeper()
      ensures Running(s, t) && Tracked(s, t, catalogVersion) && Retiring(old(s), old(t), s, t)
      ensures Onward(old(s), old(t), s, t, old(Standings())) && Standings() == old(Standings())
      ensures s.unclean == !proven && !s.active.value.job && Fitting(t.current, s.active.value)
      ensures Latched(old(s), s) && s.active.value.route == old(s.active.value.route)
      ensures proven ==> AllRetired(t.current.begins)
      ensures old(s.active.value.job) && !proven ==> Unproven(t.current.begins)
      ensures world.Calm? ==>
                && proven == (if old(s.active.value.job) then world.proves else !old(s.unclean))
                && s == old(s).(unclean := !proven, active := Some(old(s.active.value).(job := false)))
      ensures forall c :: c in old(Keeper()) ==> unchanged(c)
      decreases 1, Rank(), 1
    {
      hide Tracked, Shaped, Onward, Retiring, Fitting, AllRetired, Marked, Unproven;
      if !s.active.value.job {
        RetireNothing(s, t, catalogVersion, Standings());
        return !s.unclean;
      }
      s := s.(active := Some(s.active.value.(job := false)));
      Invoke();
      proven := Oracle();
      if world.Calm? {
        proven := world.proves;
      }
      RetireKeeps(old(s), t, s, proven, catalogVersion, old(Standings()));
      t := t.(current := Marked(t.current, proven));
      s := s.(unclean := !proven);
    }

    /** Retires the job, takes a provider's own cleanup failure into account and reads the clock. */
    method Wind(reported: Value) returns (clean: bool, interrupted: Option<Code>)
      requires Running(s, t) && Tracked(s, t, catalogVersion) && Shaped(s, t)
      modifies this`s, this`t, this`moments, Keeper()
      ensures Running(s, t) && Tracked(s, t, catalogVersion)
      ensures Wound(old(s), old(t), s, t, reported, clean, interrupted)
      ensures Latched(old(s), s) && s.active.value.route == old(s.active.value.route)
      ensures Onward(old(s), old(t), s, t, old(Standings())) && Standings() == old(Standings())
      ensures old(Timely(s, world)) ==>
                && interrupted.None? && clean == Cleans(old(s), world, reported)
                && s.local == old(s.local) && s.active.value.primary == old(s.active.value.primary) && Timely(s, world)
      ensures forall c :: c in old(Keeper()) ==> unchanged(c)
      decreases 1, Rank(), 3
    {
      hide Tracked, Shaped, Onward, Retired, Fitting, AllRetired, Wound, Ticked, Reading, Timely, Quietly, Cleans, Parted;
      ghost var s2;
      clean := Clear(reported);
      s2 := s;
      ghost var (t1, now) := (t, None);
      interrupted, now := Interruption();
      Winding(old(s), s2, s);
      WoundUp(old(s), old(t), s2, t1, s, t, reported, clean, now, interrupted);
      TickedIsOnward(s2, t1, s, t, old(Standings()));
      OnwardTransitive(old(s), old(t), s2, t1, s, t, old(Standings()));
    }

    /** Cancels the job; no cleanup is proven that the provider itself reports as failed. */
    method Clear(reported: Value) returns (clean: bool)
      requires Running(s, t) && Tracked(s, t, catalogVersion) && Shaped(s, t)
      modifies this`s, this`t, this`moments, Keeper()
      ensures Running(s, t) && Tracked(s, t, catalogVersion) && Parted(old(s), old(t), s, t, reported, clean)
      ensures Latched(old(s), s) && s.active.value.route == old(s.active.value.route)
      ensures Onward(old(s), old(t), s, t, old(Standings())) && Standings() == old(Standings())
      ensures old(Timely(s, world)) ==>
                && clean == Cleans(old(s), world, reported) && Timely(s, world)
                && s.local == old(s.local) && s.active.value.primary == old(s.active.value.primary)
      ensures forall c :: c in old(Keeper()) ==> unchanged(c)
      decreases 1, Rank(), 2
    {
      hide Tracked, Shaped, Onward, Retiring, Fitting, AllRetired, Unproven, Timely;
      TimelyCalm(s, world);
      var proven := Retire();
      clean := proven && !(reported.Fail? && reported.failure.code == Cleanup);
      UncleanKeeps(old(s), old(t), s, t, !clean, catalogVersion, old(Standings()));
      s := s.(unclean := !clean);
      if old(Timely(s, world)) {
        RetiredTimely(old(s), s, world);
      }
    }

    /** Retires the call's job, then either falls back to the local route or ends the call. */
    method Finish(reported: Value)
      requires Running(s, t) && Tracked(s, t, catalogVersion) && Shaped(s, t)
      requires s.fault.Some? ==> reported.Fail? && !FallsBack(reported.failure.code)
      requires Grounded(t.current, s.active.value, reported)
      modifies this`s, this`t, this`moments, Keeper()
      ensures Valid() && Onward(old(s), old(t), s, t, old(Standings()))
      ensures Latched(old(s), s) && Standings() == old(Standings()) && Steady(old(Keeper()))
      ensures reported.Fail? && !FallsBack(reported.failure.code) ==> s.active.None?
      ensures old(Timely(s, world)) ==>
                var verdict := Verdict(old(s), reported, Cleans(old(s), world, reported), None);
                verdict.Some? ==> s.active.None? && s.terminal == verdict
      decreases 1, Rank(), 4
    {
      hide Timely, Cleans;
      hide Tracked, Shaped, Onward, Wound, Verdict, Sound, Ready, Latest, Grounded;
      var clean, interrupted := Wind(reported);
      var result := Verdict(s, reported, clean, interrupted);
      VerdictSame(old(s), s, reported, clean, interrupted);
      if result.None? {
        FallbackReady(old(s), old(t), s, t, reported, clean, interrupted, catalogVersion, old(Standings()));
        s := s.(active := Some(s.active.value.(primary := Some(reported.failure), route := s.local.value)));
        t := t.(current := t.current.(primary := Some(reported.failure)));
        ghost var (s1, t1) := (s, t);
        BeginRoute();
        OnwardTransitive(old(s), old(t), s1, t1, s, t, old(Standings()));
        return;
      }
      EndSound(old(s), old(t), s, t, reported, clean, interrupted, catalogVersion, old(Standings()));
      s := s.(active := None, terminal := result, fault := if clean then s.fault else Some(Cleanup));
      t := t.(current := t.current.(result := result), log := t.log + [t.current.(result := result)]);
    }

    twostate predicate Steady(keepers: set<Configuration>)
      reads keepers
    {
      forall c :: c in keepers ==> c.Steady()
    }

    /** Attempts the current route, unless time, admission, attestation or the permit forbids it. */
    method BeginRoute()
      requires Running(s, t) && Tracked(s, t, catalogVersion) && Ready(t.current, s.active.value)
      requires s.fault.None? && !s.unclean
      modifies this`s, this`t, this`moments, Keeper()
      ensures Valid() && Onward(old(s), old(t), s, t, old(Standings()))
      ensures Latched(old(s), s) && Standings() == old(Standings()) && Steady(old(Keeper()))
      ensures old(Timely(s, world) && Welcome(s, world)) ==> Underway(old(s), s) && Timely(s, world)
      decreases 1, Rank(), 5
    {
      hide Timely, Welcome, Underway;
      hide Tracked, Shaped, Onward, Sound, Ready, Ticked, Reading, Launchable, Latest, Later, Grounded;
      var stop := Preflight();
      ghost var (s1, t1) := (s, t);
      Beginning(old(s), s1, s1, world);
      if stop.Some? {
        ReadyGrounds(t.current, s.active.value, stop.value);
        Finish(Fail(FailureOf(s.active.value, stop.value)));
        OnwardTransitive(old(s), old(t), s1, t1, s, t, old(Standings()));
        return;
      }
      var failure := Launch();
      Beginning(old(s), s1, s, world);
      OnwardTransitive(old(s), old(t), s1, t1, s, t, old(Standings()));
      if failure.Some? {
        ghost var (s2, t2) := (s, t);
        Finish(Fail(FailureOf(s.active.value, failure.value)));
        OnwardTransitive(old(s), old(t), s2, t2, s, t, old(Standings()));
      }
    }

    /** The effect, and why the call cannot go on with what it brought, if it cannot. */
    method Launch() returns (failure: Option<Code>)
      requires Running(s, t) && Tracked(s, t, catalogVersion) && Ready(t.current, s.active.value)
      requires Launchable(s.active.value) && s.fault.None? && !s.unclean
      modifies this`s, this`t, this`moments, Keeper()
      ensures Running(s, t) && Tracked(s, t, catalogVersion) && Shaped(s, t)
      ensures Onward(old(s), old(t), s, t, old(Standings())) && Standings() == old(Standings())
      ensures Latched(old(s), s) && s.active.value.route == old(s.active.value.route) && Steady(old(Keeper()))
      ensures s.fault.Some? ==> failure == Some(Clock)
      ensures failure.None? ==> Valid()
      ensures old(Timely(s, world) && Welcome(s, world)) ==> failure.None? && Underway(old(s), s) && Timely(s, world)
      ensures failure.Some? ==> Grounded(t.current, s.active.value, Fail(FailureOf(s.active.value, failure.value)))
      ensures |t.current.begins| >= |old(t.current.begins)|
      ensures |t.current.begins| == |old(t.current.begins)| ==> failure == Some(Canceled)
      ensures |t.current.begins| > |old(t.current.begins)| ==>
                match t.current.begins[|old(t.current.begins)|].begun
                case Threw => failure == Some(ProviderFailed)
                case Refused(code) => failure == Some(code)
                case Returned => true
      decreases 1, Rank(), 3
    {
      hide Tracked, Shaped, Onward, Sound, Ready, Ticked, Reading, Latest, Later, Grounded, Unanswered;
      hide Timely, Welcome, Quietly;
      var begun := Effect();
      if begun.None? {
        ReadyGrounds(t.current, s.active.value, Canceled);
        return Some(Canceled);
      }
      BegunGrounds(t.current, s.active.value);
      if begun.value.Threw? {
        return Some(ProviderFailed);
      } else if begun.value.Refused? {
        return Some(begun.value.code);
      }
      ghost var (s2, t2) := (s, t);
      ghost var now;
      failure, now := Interruption();
      Launching(old(s), s2, s, world);
      HoldingOn(s2, t2, s, t, now, failure, catalogVersion);
      TickedIsOnward(s2, t2, s, t, old(Standings()));
      TickedBegins(s2, t2, s, t);
      OnwardTransitive(old(s), old(t), s2, t2, s, t, old(Standings()));
    }

    /** Time, provider admission and peer attestation, before any effect. */
    method Preflight() returns (stop: Option<Code>)
      requires Running(s, t) && Tracked(s, t, catalogVersion) && Ready(t.current, s.active.value)
      requires s.fault.None? && !s.unclean
      modifies this`s, this`t, this`moments, Keeper()
      ensures Running(s, t) && Tracked(s, t, catalogVersion) && Shaped(s, t) && Ready(t.current, s.active.value)
      ensures Onward(old(s), old(t), s, t, old(Standings())) && Standings() == old(Standings())
      ensures Latched(old(s), s) && s.active.value.route == old(s.active.value.route) && !s.unclean
      ensures s.fault.Some? ==> stop == Some(Clock)
      ensures stop.None? ==> Launchable(s.active.value)
      ensures stop.None? ==>
                && |moments| == |old(moments)| + 3 && old(moments) <= moments
                && moments[|old(moments)|].Clocked? && moments[|old(moments)| + 1] == Attested(PeerOf(s.active.value.route))
                && moments[|old(moments)| + 2] == Clocked(s.active.value.lastTime)
      ensures old(Timely(s, world) && Welcome(s, world)) ==> stop.None? && Timely(s, world) && Requesting(old(s), s)
      ensures forall c :: c in old(Keeper()) ==> unchanged(c)
      decreases 1, Rank(), 4
    {
      hide Tracked, Shaped, Onward, Ready, Ticked, Reading, Launchable, ProviderDenial, Timely, Welcome, Quietly, Requesting, ServedBy;
      ghost var now;
      stop, now := Interruption();
      PreflightTick(old(s), old(t), s, t, now, stop, catalogVersion, old(Standings()));
      if stop.Some? {
        return;
      }
      ghost var (s1, t1) := (s, t);
      Beginning(old(s), s1, s1, world);
      stop := Approach();
      Measuring(old(s), s1, s);
      OnwardTransitive(old(s), old(t), s1, t1, s, t, old(Standings()));
    }

    /** Provider admission and attestation, and then the time once more. */
    method Approach() returns (stop: Option<Code>)
      requires Running(s, t) && Tracked(s, t, catalogVersion) && Ready(t.current, s.active.value) && Shaped(s, t)
      requires s.fault.None? && !s.unclean && s.active.value.deadline.Some?
      modifies this`s, this`t, this`moments, Keeper()
      ensures Running(s, t) && Tracked(s, t, catalogVersion) && Shaped(s, t) && Ready(t.current, s.active.value)
      ensures Onward(old(s), old(t), s, t, old(Standings())) && Standings() == old(Standings())
      ensures Latched(old(s), s) && s.active.value.route == old(s.active.value.route) && !s.unclean
      ensures s.fault.Some? ==> stop == Some(Clock)
      ensures stop.None? ==> Launchable(s.active.value)
      ensures stop.None? ==>
                moments == old(moments) + [Attested(PeerOf(s.active.value.route)), Clocked(s.active.value.lastTime)]
      ensures old(Timely(s, world) && Welcome(s, world)) ==> stop.None? && Timely(s, world) && Requesting(old(s), s)
      ensures forall c :: c in old(Keeper()) ==> unchanged(c)
      decreases 1, Rank(), 3
    {
      hide Tracked, Shaped, Onward, Ready, Ticked, Reading, Launchable, ProviderDenial, Timely, Welcome, Quietly, Requesting, ServedBy;
      hide Latched;
      ghost var seen;
      stop, seen := Admit();
      SignalledOnward(old(s), old(t), s, old(Standings()));
      SignalLatches(old(s), s);
      if stop.Some? {
        return;
      }
      ghost var s2 := s;
      stop := Measure();
      LatchedTransitive(old(s), s2, s);
      OnwardTransitive(old(s), old(t), s2, old(t), s, t, old(Standings()));
    }

    /** The last reading before the effect: what is left of the budget, and that there is some. */
    method Measure() returns (stop: Option<Code>)
      requires Running(s, t) && Tracked(s, t, catalogVersion) && Ready(t.current, s.active.value)
      requires s.fault.None? && !s.unclean && ServedBy(s.active.value)
      modifies this`s, this`t, this`moments, Keeper()
      ensures Running(s, t) && Tracked(s, t, catalogVersion) && Shaped(s, t) && Ready(t.current, s.active.value)
      ensures Onward(old(s), old(t), s, t, old(Standings())) && Standings() == old(Standings())
      ensures Latched(old(s), s) && s.active.value.route == old(s.active.value.route) && !s.unclean
      ensures s.fault.Some? ==> stop == Some(Clock)
      ensures stop.None? ==>
                Launchable(s.active.value) && moments == old(moments) + [Clocked(s.active.value.lastTime)]
      ensures old(Timely(s, world)) ==> stop.None? && Timely(s, world) && Requesting(old(s), s)
      ensures forall c :: c in old(Keeper()) ==> unchanged(c)
      decreases 1, Rank(), 2
    {
      hide Tracked, Shaped, Onward, Ready, Ticked, Reading, Launchable;
      ghost var now;
      stop, now := Interruption();
      ghost var s1 := s;
      PreflightTick(old(s), old(t), s, t, now, stop, catalogVersion, old(Standings()));
      ReadingStands(old(s), s, now, stop);
      if stop.None? {
        LaunchKeeps(old(s), old(t), s, t, catalogVersion, old(Standings()));
        s := s.(active := Some(s.active.value.(request := Requested(s.active.value))));
      }
    }

    /** Provider admission, then attestation of a host's peer. */
    method Admit() returns (stop: Option<Code>, ghost seen: Option<Id>)
      requires Running(s, t) && Tracked(s, t, catalogVersion) && Ready(t.current, s.active.value)
      requires s.active.value.deadline.Some?
      modifies this`s, this`t, this`moments, Keeper()
      ensures Running(s, t) && Tracked(s, t, catalogVersion) && Ready(t.current, s.active.value)
      ensures Shaped(old(s), t) ==> Shaped(s, t)
      ensures Signalled(old(s), s) && t == old(t)
      ensures stop.None? ==> ServedBy(s.active.value)
      ensures world.Calm? ==> s == old(s)
      ensures stop.None? ==> moments == old(moments) + [Attested(PeerOf(s.active.value.route))]
      ensures old(Welcome(s, world)) ==> stop.None? && s == old(s)
      ensures !ServedBy(old(s.active.value)) ==> moments == old(moments)
      ensures ServedBy(old(s.active.value)) ==>
                && moments == old(moments) + [Attested(seen)]
                && if s.active.value.route.Local? then seen.None?
                   else stop == (if seen == Some(s.active.value.route.peer) then None else Some(Identity))
                        && (world.Calm? ==> seen == world.peer)
      ensures !ServedBy(old(s.active.value)) || s.active.value.route.Local? ==>
                stop == ProviderDenial(Requested(old(s.active.value)), s.active.value.route.provider, catalogVersion)
      ensures forall c :: c in old(Keeper()) ==> unchanged(c)
      decreases 1, Rank(), 2
    {
      TrackedCatalog(s, t, catalogVersion);
      Admitting(s, world, catalogVersion);
      hide Tracked, Shaped, Ready, ServedBy, ProviderDenial, Welcome, Timely, Signalled, Requested;
      SignalRuns(s, t, s);
      var (request, provider) := (Requested(s.active.value), s.active.value.route.provider);
      stop := CheckProvider(request, provider);
      seen := None;
      if stop.None? && s.active.value.route.Host? {
        var peer := Attest();
        SignalKeeps(old(s), t, s, catalogVersion);
        SignalRuns(old(s), t, s);
        seen := peer;
        if peer != Some(s.active.value.route.peer) {
          stop := Some(Identity);
        }
      } else {
        moments := if stop.None? then moments + [Attested(None)] else moments;
      }
    }

    /** The identity that the host's transport shows of its peer. */
    method Attest() returns (peer: Option<Id>)
      requires !s.inside
      modifies this`s, this`t, this`moments, Keeper()
      ensures Signalled(old(s), s) && t == old(t) && moments == old(moments) + [Attested(peer)]
      ensures world.Calm? ==> s == old(s) && peer == world.peer
      ensures forall c :: c in old(Keeper()) ==> unchanged(c)
      decreases 1, Rank(), 1
    {
      Invoke();
      peer := Oracle();
      if world.Calm? {
        peer := world.peer;
      }
      moments := moments + [Attested(peer)];
    }

    /** A provider serves its own requests for a service it has, while it is enabled and not down. */
    method CheckProvider(request: Request, provider: Provider) returns (stop: Option<Code>)
      ensures stop == ProviderDenial(request, provider, catalogVersion)
    {
      if request.catalog != catalogVersion {
        return Some(StaleCatalog);
      }
      if request.provider != provider.id || request.model != provider.model {
        return Some(Identity);
      }
      if request.service !in provider.capabilities {
        return Some(InvalidRequest);
      }
      return if provider.enabled && !provider.health.Down? then None else Some(Unavailable);
    }

    method Effect() returns (begun: Option<Begun>)
      requires Running(s, t) && Tracked(s, t, catalogVersion) && Ready(t.current, s.active.value)
      requires Launchable(s.active.value) && s.fault.None? && !s.unclean
      modifies this`s, this`t, this`moments, Keeper()
      ensures Running(s, t) && Tracked(s, t, catalogVersion) && Shaped(s, t)
      ensures Onward(old(s), old(t), s, t, old(Standings())) && Standings() == old(Standings())
      ensures Latched(old(s), s) && s.active.value.route == old(s.active.value.route) && s.fault.None?
      ensures begun.None? ==> t == old(t) && Ready(t.current, s.active.value)
      ensures old(Timely(s, world) && Welcome(s, world)) ==>
                && begun == Some(world.begun)
                && s == old(s).(unclean := true, active := Some(old(s.active.value).(job := true)))
      ensures old(s.permit.Open?) && begun.None? ==> s.disabled || s.active.value.cancelRequested
      ensures begun.Some? ==> Latest(t.current, s.active.value) && Unanswered(t.current)
      ensures begun.Some? ==>
                && |t.current.begins| == |old(t.current.begins)| + 1
                && !t.current.begins[|old(t.current.begins)|].closed && !t.current.begins[|old(t.current.begins)|].stopped
                && t.current.begins[|old(t.current.begins)|].begun == begun.value
                && s.unclean == !begun.value.Refused? && s.active.value.job == begun.value.Returned?
      ensures Steady(old(Keeper()))
      decreases 1, Rank(), 2
    {
      hide Tracked, Shaped, Onward, Ready, Authorizes, Latched, Latest, Unanswered, Timely, Welcome, Launched;
      ghost var k := Standings();
      assert Launchable(s.active.value);
      Welcomed(s, world);
      var permitted := Permitted();
      ghost var s1 := s;
      if !permitted || s.disabled || s.active.value.cancelRequested {
        EffectDenied(old(s), t, s, catalogVersion, k);
        return None;
      }
      s := s.(unclean := true);
      Invoke();
      var answer: Begun := Oracle();
      if world.Calm? {
        answer := world.begun;
      }
      EffectKeeps(old(s), t, s1, s, answer, catalogVersion, k);
      LaunchedBegin(t.current, s.active.value, answer,
                    if k.Some? then Some(Authority(k.value.state, k.value.health, s.active.value.lastTime.value)) else None, s1);
      t := t.(current := Launched(t.current, s.active.value, answer,
                                  if k.Some? then Some(Authority(k.value.state, k.value.health, s.active.value.lastTime.value))
                                  else None, s1));
      s := s.(unclean := !answer.Refused?, active := Some(s.active.value.(job := answer.Returned?)));
      return Some(answer);
    }

    /** Configuration admission: absent, injected, or the owning configuration's. */
    method Permitted() returns (ok: bool)
      requires s.active.Some? && !s.inside && s.active.value.lastTime.Some?
      modifies this`s, this`t, this`moments, Keeper()
      ensures Signalled(old(s), s) && t == old(t)
      ensures Standings() == old(Standings()) && Steady(old(Keeper()))
      ensures s.permit.Open? ==> ok
      ensures world.Calm? ==> s == old(s)
      ensures world.Calm? && s.permit.Injected? ==> ok == world.permits
      ensures s.permit.Owned? ==>
                (ok <==> && old(!s.permit.config.clockFault && s.active.value.lastTime.value >= s.permit.config.lastTime)
                         && Authorizes(Authority(s.permit.config.state, s.permit.config.health, s.active.value.lastTime.value),
                                       s.active.value.route.provider, s.active.value.request.service))
      ensures ok && s.permit.Owned? ==>
                Authorizes(Authority(s.permit.config.state, s.permit.config.health, s.active.value.lastTime.value),
                           s.active.value.route.provider, s.active.value.request.service)
      decreases 1, Rank(), 1
    {
      match s.permit
      case Open =>
        ok := true;
      case Injected =>
        Invoke();
        ok := Oracle();
        if world.Calm? {
          ok := world.permits;
        }
      case Owned(config) =>
        s := s.(inside := true);
        ok := config.Permit(s.active.value.route.provider, s.active.value.request.service, s.active.value.lastTime.value);
        s := s.(inside := false);
    }

    /** Admits one request and attempts it; a refusal changes nothing. */
    method Start(request: Request) returns (answer: Admission)
      requires !s.inside ==> Valid()
      modifies this`s, this`t, this`moments, Keeper()
      ensures old(s.inside) ==> moments == old(moments)
      ensures old(s.inside) ==> answer == Rejected(Busy)
      ensures answer == (if StartDenial(old(s), request, catalogVersion).None? then Accepted
                         else Rejected(StartDenial(old(s), request, catalogVersion).value))
      ensures answer.Rejected? ==> s == old(s) && t == old(t) && forall c :: c in old(Keeper()) ==> unchanged(c)
      ensures !old(s.inside) ==> Valid()
      ensures answer.Accepted? ==>
                Onward(Opened(old(s), request), Opening(old(s), old(t), request), s, t, old(Standings()))
      ensures answer.Accepted? && world.Calm? && world.now >= 0 && old(Welcome(Opened(s, request), world)) ==>
                Underway(Opened(old(s), request), s) && Timely(s, world)
      ensures Latched(old(s), s) && Standings() == old(Standings()) && Steady(old(Keeper()))
      decreases if s.inside then 0 else 2, 0, 0
    {
      hide Sound, Tracked, Onward, Ready;
      if s.active.Some? || s.terminal.Some? || s.inside || s.configuring {
        return Rejected(Busy);
      }
      if s.fault.Some? {
        return Rejected(s.fault.value);
      }
      if s.disabled {
        return Rejected(Canceled);
      }
      if request.budget < 1 || request.budget > 30000 {
        return Rejected(InvalidRequest);
      }
      if request.catalog != catalogVersion {
        return Rejected(StaleCatalog);
      }
      if request.provider != s.host.provider.id || request.model != s.host.provider.model {
        return Rejected(Identity);
      }
      if request.id in s.history {
        return Rejected(Replay);
      }
      if |s.history| >= 4096 {
        return Rejected(Exhausted);
      }
      OpenKeeps(s, t, request, catalogVersion);
      s := Opened(s, request);
      t := Opening(s, t, request);
      BeginRoute();
      return Accepted;
    }

    /** One look at the active job: what to finish the call with, if anything. */
    method PollJob() returns (value: Option<Value>, ghost first: Option<Code>, ghost stop: Option<Code>)
      requires Valid() && s.active.Some?
      modifies this`s, this`t, this`moments, Keeper()
      ensures Running(s, t) && Tracked(s, t, catalogVersion) && Shaped(s, t) && Latest(t.current, s.active.value)
      ensures Onward(old(s), old(t), s, t, old(Standings())) && Latched(old(s), s) && Standings() == old(Standings())
      ensures value.None? ==> Valid()
      ensures value.Some? ==> Grounded(t.current, s.active.value, value.value)
      ensures s.fault.Some? ==> value.Some? && value.value.Fail? && !FallsBack(value.value.failure.code)
      ensures exists s1, reading :: Reading(old(s), s1, reading, first) && (first.Some? ==> s1 == s)
      ensures old(Timely(s, world)) ==>
                && first.None? && stop.None? && Timely(s, world) && Calmer(old(s), s) && s.active.value.job
                && t.current.begins != [] && t.current.begins[|t.current.begins| - 1].brought == world.reply
      ensures if first.Some? then value == Some(Fail(FailureOf(s.active.value, first.value)))
              else t.current.begins != [] && Answered(s.active.value, t.current.begins[|t.current.begins| - 1], stop, value)
      ensures forall c :: c in old(Keeper()) ==> unchanged(c)
      decreases 1, 2, 2
    {
      hide Sound, Tracked, Onward, Shaped, Ready, Ticked, Reading, Latest, Grounded, Answered, Unanswered, Timely, Quietly;
      ghost var k := Standings();
      SoundHolding(s, t, catalogVersion);
      ghost var now;
      var interrupted;
      interrupted, now := Interruption();
      first, stop := interrupted, None;
      HoldingOn(old(s), old(t), s, t, now, first, catalogVersion);
      TickedIsOnward(old(s), old(t), s, t, k);
      ghost var (s1, t1) := (s, t);
      CalmerIs(old(s), s1);
      assert Reading(old(s), s1, now, first);
      if interrupted.Some? {
        return Some(Fail(FailureOf(s.active.value, interrupted.value))), first, None;
      }
      ghost var before;
      value, before, now, stop := Hear();
      OnwardTransitive(old(s), old(t), s1, t1, s, t, k);
    }

    /** The job's poll, and what it brought. */
    method Listen() returns (incoming: Incoming)
      requires Valid() && s.active.Some?
      modifies this`s, this`t, this`moments, Keeper()
      ensures Running(s, t) && Tracked(s, t, catalogVersion) && Shaped(s, t) && Latest(t.current, s.active.value)
      ensures Onward(old(s), old(t), s, t, old(Standings())) && Latched(old(s), s) && Standings() == old(Standings())
      ensures Signalled(old(s), s) && s.active.Some? && s.active.value.job && s.fault.None? && moments == old(moments)
      ensures |t.current.begins| == |old(t.current.begins)| > 0
      ensures var b := t.current.begins[|t.current.begins| - 1];
              b.brought == incoming && b.begun.Returned? && (incoming.Pending? ==> Unanswered(t.current))
      ensures world.Calm? ==> incoming == world.reply && s == old(s)
      ensures forall c :: c in old(Keeper()) ==> unchanged(c)
      decreases 1, 2, 0
    {
      hide Sound, Tracked, Onward, Shaped, Latest, Unanswered, Brought, Latched;
      SoundHolding(s, t, catalogVersion);
      Invoke();
      SignalSound(old(s), t, s, catalogVersion);
      SignalledOnward(old(s), t, s, Standings());
      incoming := Oracle();
      if world.Calm? {
        incoming := world.reply;
      }
      BroughtKeeps(s, t, incoming, catalogVersion, Standings());
      t := t.(current := Brought(t.current, incoming));
      OnwardTransitive(old(s), old(t), s, old(t), s, t, Standings());
      SignalLatches(old(s), s);
    }

    /** The job's own answer, which counts only if time is left after it. */
    method Hear() returns (value: Option<Value>, ghost before: Client, ghost reading: Option<int>, ghost stop: Option<Code>)
      requires Valid() && s.active.Some?
      modifies this`s, this`t, this`moments, Keeper()
      ensures Running(s, t) && Tracked(s, t, catalogVersion) && Shaped(s, t) && Latest(t.current, s.active.value)
      ensures Onward(old(s), old(t), s, t, old(Standings())) && Latched(old(s), s) && Standings() == old(Standings())
      ensures value.None? ==> Valid()
      ensures value.Some? ==> Grounded(t.current, s.active.value, value.value)
      ensures s.fault.Some? ==> value.Some? && value.value.Fail? && !FallsBack(value.value.failure.code)
      ensures t.current.begins != [] && Answered(s.active.value, t.current.begins[|t.current.begins| - 1], stop, value)
      ensures Signalled(old(s), before)
      ensures old(Timely(s, world)) ==>
                && stop.None? && Timely(s, world) && t.current.begins[|t.current.begins| - 1].brought == world.reply
                && Calmer(old(s), s)
      ensures if moments == old(moments) then stop.None? && before == s
              else moments == old(moments) + [Clocked(reading)] && Reading(before, s, reading, stop)
      ensures forall c :: c in old(Keeper()) ==> unchanged(c)
      decreases 1, 2, 1
    {
      hide Sound, Tracked, Onward, Shaped, Ready, Ticked, Reading, Latest, Grounded, Unanswered, Answered, Latched, Timely, Quietly, Calmer;
      TimelyCalm(s, world);
      ghost var k := Standings();
      var incoming := Listen();
      LatestMeans(t.current, s.active.value);
      ghost var t1 := t;
      before, reading, stop := s, None, None;
      CalmerIs(old(s), s);
      if incoming.Raised? || incoming.Crashed? {
        value := Some(Fail(FailureOf(s.active.value, if incoming.Raised? then incoming.code else ProviderFailed)));
        HeardGrounds(t.current, s.active.value, value.value);
        return;
      }
      value, reading, stop := Weigh(incoming);
      OnwardTransitive(old(s), old(t), before, t1, s, t, k);
      LatchedTransitive(old(s), before, s);
      CalmerTransitive(old(s), before, s);
    }

    /** A job's answer that came counts only if time is left after it. */
    method Weigh(incoming: Incoming) returns (value: Option<Value>, ghost reading: Option<int>, ghost stop: Option<Code>)
      requires Running(s, t) && Tracked(s, t, catalogVersion) && Shaped(s, t) && Latest(t.current, s.active.value)
      requires s.active.value.job && s.fault.None? && !incoming.Raised? && !incoming.Crashed?
      requires t.current.begins != []
      requires var b := t.current.begins[|t.current.begins| - 1];
               b.brought == incoming && b.begun.Returned? && (incoming.Pending? ==> Unanswered(t.current))
      modifies this`s, this`t, this`moments, Keeper()
      ensures Running(s, t) && Tracked(s, t, catalogVersion) && Shaped(s, t) && Latest(t.current, s.active.value)
      ensures Onward(old(s), old(t), s, t, old(Standings())) && Latched(old(s), s) && Standings() == old(Standings())
      ensures value.None? ==> Valid()
      ensures value.Some? ==> Grounded(t.current, s.active.value, value.value)
      ensures s.fault.Some? ==> value.Some? && value.value.Fail? && !FallsBack(value.value.failure.code)
      ensures t.current.begins == old(t.current.begins)
      ensures Answered(s.active.value, t.current.begins[|t.current.begins| - 1], stop, value)
      ensures moments == old(moments) + [Clocked(reading)] && Reading(old(s), s, reading, stop)
      ensures old(Timely(s, world)) ==> stop.None? && Timely(s, world) && Calmer(old(s), s)
      ensures forall c :: c in old(Keeper()) ==> unchanged(c)
      decreases 1, 2, 0
    {
      hide Sound, Tracked, Onward, Shaped, Ready, Ticked, Reading, Latest, Grounded, Unanswered, Answered, Latched, Timely, Quietly;
      hide Calmer;
      var interrupted;
      interrupted, reading := Interruption();
      stop := interrupted;
      CalmerIs(old(s), s);
      HoldingOn(old(s), old(t), s, t, reading, interrupted, catalogVersion);
      TickedIsOnward(old(s), old(t), s, t, old(Standings()));
      LatestMeans(t.current, s.active.value);
      AnsweredOtherwise(s.active.value, t.current.begins[|t.current.begins| - 1], stop);
      if interrupted.Some? {
        return Some(Fail(FailureOf(s.active.value, interrupted.value))), reading, stop;
      }
      if incoming.Pending? {
        return None, reading, stop;
      }
      var received := Receive(incoming);
      HeardGrounds(t.current, s.active.value, received);
      value := Some(received);
    }

    /** The value that a reply of the current route's job amounts to: an output, or exactly its failure. */
    method Receive(incoming: Incoming) returns (value: Value)
      requires s.active.Some? && (incoming.Http? || incoming.Raw?)
      ensures var (call, fault) := (s.active.value, Blame(s.active.value.route.Host?, PeerOf(s.active.value.route), incoming));
              value == if fault.Some? then Fail(FailureOf(call, fault.value)) else Output
    {
      var call := s.active.value;
      if call.route.Host? {
        if incoming.Raw? {
          return Fail(FailureOf(call, InvalidResponse));
        }
        if incoming.peer != call.route.peer {
          return Fail(FailureOf(call, Identity));
        }
        if incoming.status in {401, 403} {
          return Fail(FailureOf(call, Authentication));
        }
        if incoming.status in {502, 503, 504} {
          return Fail(FailureOf(call, if incoming.status == 504 then Timeout else Unavailable));
        }
        if incoming.status != 200 {
          return Fail(FailureOf(call, InvalidResponse));
        }
      } else if incoming.Http? {
        return Fail(FailureOf(call, InvalidResponse));
      }
      value := if incoming.body.Decoded? then Output else Fail(FailureOf(call, incoming.body.code));
    }

    /** One look at the job of the active call, and its end if it comes to one. */
    method Advance()
      requires Valid() && s.active.Some?
      modifies this`s, this`t, this`moments, Keeper()
      ensures Valid() && Onward(old(s), old(t), s, t, old(Standings()))
      ensures Latched(old(s), s) && Standings() == old(Standings()) && Steady(old(Keeper()))
      ensures old(Timely(s, world)) ==> Heard(old(s), world, s.active.Some?, s.terminal)
      decreases 1, 2, 3
    {
      hide Sound, Tracked, Onward, Shaped, Latest, Grounded, Answered, Reading, Timely, Heard, Verdict, Cleans, Calmer;
      TimelyCalm(s, world);
      SoundActive(s, t, catalogVersion);
      var value, _, _ := PollJob();
      ghost var (s1, t1) := (s, t);
      if value.None? {
        SoundActive(s, t, catalogVersion);
        if old(Timely(s, world)) {
          HeardWaiting(old(s), world, s1, t1.current);
        }
        return;
      }
      Finish(value.value);
      if old(Timely(s, world)) {
        HeardOut(old(s), world, s1, t1.current, value.value, s.active.Some?, s.terminal);
      }
      OnwardTransitive(old(s), old(t), s1, t1, s, t, old(Standings()));
    }

    /** Advances the active call, and hands out an ended call's result, once. */
    method Poll() returns (result: Option<Terminal>)
      requires !s.inside ==> Valid()
      modifies this`s, this`t, this`moments, Keeper()
      ensures old(s.inside) ==> moments == old(moments)
      ensures old(s.inside || s.configuring) ==>
                result.None? && s == old(s) && t == old(t) && forall c :: c in old(Keeper()) ==> unchanged(c)
      ensures !old(s.inside) ==> Valid()
      ensures !old(s.inside || s.configuring) ==> Polled(old(s), old(t), s, t, result, old(Standings()))
      ensures old(!s.inside && !s.configuring && Timely(s, world)) ==> Heard(old(s), world, s.active.Some?, result)
      ensures Latched(old(s), s) && Standings() == old(Standings()) && Steady(old(Keeper()))
      decreases if s.inside then 0 else 2, 0, 0
    {
      hide Sound, Tracked, Onward, Shaped, Latest, Polled, Timely, Heard;
      TimelyCalm(s, world);
      ghost var k := Standings();
      result := None;
      if s.inside || s.configuring {
        return;
      }
      if s.active.Some? {
        Advance();
      }
      HandOut(old(s), old(t), s, t, catalogVersion, k);
      result := s.terminal;
      t := if result.Some? then t.(delivered := t.delivered + 1) else t;
      s := s.(terminal := None);
    }

    /** Ends the active call; from inside a callback it only asks for that. */
    method Cancel()
      requires !s.inside ==> Valid()
      modifies this`s, this`t, this`moments, Keeper()
      ensures old(s.inside) ==> moments == old(moments)
      ensures old(s.inside) ==> Signalled(old(s), s) && t == old(t) && forall c :: c in old(Keeper()) ==> unchanged(c)
      ensures old(s.inside) && s.active.Some? ==> s.active.value.cancelRequested
      ensures !old(s.inside) ==> Valid() && s.active.None?
      ensures !old(s.inside) && old(s.active.Some?) ==> Onward(old(s), old(t), s, t, old(Standings()))
      ensures old(s.active.None?) ==> s == old(s) && t == old(t)
      ensures Latched(old(s), s) && Standings() == old(Standings()) && Steady(old(Keeper()))
      decreases if s.inside then 0 else 2, 0, 0
    {
      hide Sound, Tracked, Onward, Shaped, Latest;
      if s.active.None? {
        return;
      }
      s := s.(active := Some(s.active.value.(cancelRequested := true)));
      if !s.inside {
        SoundHolding(old(s), t, catalogVersion);
        SignalSound(old(s), t, s, catalogVersion);
        RequestOnward(old(s), t, s, Standings());
        ghost var s1 := s;
        StopGrounds(t.current, s.active.value, Canceled);
        Finish(Fail(FailureOf(s.active.value, Canceled)));
        OnwardTransitive(old(s), old(t), s1, old(t), s, t, old(Standings()));
      }
    }

    /** Closes admission, for the configuration owner only, and ends the active call. */
    method Disable(caller: Option<nat>) returns (answer: Admission)
      requires !s.inside ==> Valid()
      modifies this`s, this`t, this`moments, Keeper()
      ensures old(s.inside) ==> moments == old(moments)
      ensures answer == if caller == old(s.owner) then Accepted else Rejected(Identity)
      ensures answer.Rejected? ==> s == old(s) && t == old(t) && forall c :: c in old(Keeper()) ==> unchanged(c)
      ensures answer.Accepted? ==> s.disabled
      ensures old(s.inside) ==> Signalled(old(s), s) && t == old(t) && forall c :: c in old(Keeper()) ==> unchanged(c)
      ensures !old(s.inside) ==> Valid() && (answer.Accepted? ==> s.active.None?)
      ensures !old(s.inside) && answer.Accepted? && old(s.active.Some?) ==>
                Onward(old(s).(disabled := true), old(t), s, t, old(Standings()))
      ensures answer.Accepted? && old(s.active.None?) ==> s == old(s).(disabled := true) && t == old(t)
      ensures Latched(old(s), s) && Standings() == old(Standings()) && Steady(old(Keeper()))
      decreases if s.inside then 0 else 2, 0, 1
    {
      hide Sound, Tracked, Onward;
      if caller != s.owner {
        return Rejected(Identity);
      }
      s := s.(disabled := true);
      DisableKeeps(old(s), t, catalogVersion);
      Cancel();
      return Accepted;
    }

    /** Rebinds an idle client's routes and permit; faults, history and results stay. */
    method Reconfigure(route: Route, fallback: Option<Route>, guard: Permit, caller: Option<nat>)
      returns (answer: Admission)
      requires !s.inside ==> Valid()
      modifies this`s
      ensures old(s.inside) ==> moments == old(moments)
      ensures answer == (if caller != old(s.owner) then Rejected(Identity)
                         else if old(s.active.Some? || s.terminal.Some? || s.inside) then Rejected(Busy)
                         else if old(s.fault.Some?) then Rejected(old(s.fault.value))
                         else if !route.Host? || (fallback.Some? && !fallback.value.Local?) then Rejected(Identity)
                         else Accepted)
      ensures answer.Rejected? ==> s == old(s)
      ensures answer.Accepted? ==> s == old(s).(host := route, local := fallback, permit := guard, disabled := false)
      ensures t == old(t) && (!old(s.inside) ==> Valid())
      decreases if s.inside then 0 else 2, 0, 0
    {
      if caller != s.owner {
        return Rejected(Identity);
      }
      if s.active.Some? || s.terminal.Some? || s.inside {
        return Rejected(Busy);
      }
      if s.fault.Some? {
        return Rejected(s.fault.value);
      }
      if !route.Host? || (fallback.Some? && !fallback.value.Local?) {
        return Rejected(Identity);
      }
      s := s.(host := route, local := fallback, permit := guard, disabled := false);
      return Accepted;
    }

    /** Attaches the one configuration owner of an idle client, which starts disabled. */
    method ClaimConfiguration() returns (token: Option<nat>)
      requires !s.inside ==> Valid()
      modifies this`s
      ensures old(s.inside) ==> moments == old(moments)
      ensures token.Some? <==>
              old(s.owner.None? && s.active.None? && s.terminal.None? && !s.inside && !s.configuring && s.fault.None?)
      ensures token.None? ==> s == old(s)
      ensures token.Some? ==> s == old(s).(owner := token, disabled := true)
      ensures t == old(t) && (!old(s.inside) ==> Valid())
      decreases if s.inside then 0 else 2, 0, 0
    {
      if s.owner.Some? || s.active.Some? || s.terminal.Some? || s.inside || s.configuring || s.fault.Some? {
        return None;
      }
      token := Some(1);
      s := s.(owner := token, disabled := true);
    }
  }

  /**
   In a calm, a request that is admitted and welcome is answered by the next poll: with the host's output if that is
   what its job brings, and otherwise with exactly the failure that it brings, where no local route is left.
   */
  method Ask(client: GatewayClient, request: Request) returns (result: Option<Terminal>)
    requires client.Valid() && !client.s.inside && !client.s.configuring
    requires StartDenial(client.s, request, client.catalogVersion).None?
    requires client.world.Calm? && client.world.now >= 0 && client.world.proves && !client.world.reply.Pending?
    requires Welcome(Opened(client.s, request), client.world)
    modifies client
    ensures client.Valid() && client.world == old(client.world)
    ensures var (host, fault) := (old(client.s.host), Blame(true, PeerOf(old(client.s.host)), client.world.reply));
            if fault.None? then result == Some(Succeeded(host.provider.id, host.provider.model))
            else old(client.s.local.None?) && !fault.value.Cleanup? ==>
                   result == Some(Failed([Failure(fault.value, host.provider.id, host.provider.model)]))
  {
    hide Sound, Onward, Polled, Timely;
    OpenedTimely(client.s, request, client.catalogVersion, client.world);
    var _ := client.Start(request);
    ghost var call := client.s.active.value;
    assert call.route == old(client.s.host) && call.primary.None?;
    SoundHost(old(client.s), old(client.t), client.catalogVersion);
    TimelyCalm(client.s, client.world);
    ghost var fault := Blame(true, PeerOf(old(client.s.host)), client.world.reply);
    assert fault.Some? ==> [] + [FailureOf(call, fault.value)] == [FailureOf(call, fault.value)];
    result := client.Poll();
  }

  lemma SoundHost(s: Client, t: Trace, catalog: int)
    requires Sound(s, t, catalog)
    ensures s.host.Host?
  {
  }

  lemma OpenedTimely(s: Client, request: Request, catalog: int, w: World)
    requires StartDenial(s, request, catalog).None? && w.Calm? && w.now >= 0
    ensures Timely(Opened(s, request), w)
  {
  }

  /** Any number of operations, by anyone, with any answers from outside. */
  method AnyRun(client: GatewayClient, steps: nat)
    requires client.Valid() && !client.s.permit.Owned?
    modifies client
    ensures client.Valid() && Evolves(old(client.s), old(client.t), client.s, client.t)
    ensures client.s.active.None? && !client.s.unclean ==> Spotless(client.t.log)
    ensures client.s.active.Some? ==> client.s.fault.None? && client.s.active.value.job
  {
    hide Sound, Onward, Polled, Evolves;
    ghost var (s0, t0) := (client.s, client.t);
    EvolvesReflexive(s0, t0);
    for i := 0 to steps
      invariant client.Valid() && Evolves(s0, t0, client.s, client.t) && !client.s.permit.Owned?
    {
      ghost var (s1, t1) := (client.s, client.t);
      client.world := Oracle();
      AnyStep(client);
      EvolvesTransitive(s0, t0, s1, t1, client.s, client.t);
    }
    RunSound(client.s, client.t, client.catalogVersion);
  }

  method AnyStep(client: GatewayClient)
    requires client.Valid() && !client.s.permit.Owned?
    modifies client
    ensures client.Valid() && Evolves(old(client.s), old(client.t), client.s, client.t)
    ensures !client.s.permit.Owned?
  {
    hide Sound, Onward, Polled;
    ghost var catalog := client.catalogVersion;
    var caller: Option<nat> := Oracle();
    if * {
      var request: Request := Oracle();
      var answer := client.Start(request);
      if answer.Accepted? {
        StartEvolves(old(client.s), old(client.t), request, client.s, client.t, None, catalog);
      }
    } else if * {
      if client.s.configuring {
        var _ := client.Poll();
      } else {
        var result := client.Poll();
        PollEvolves(old(client.s), old(client.t), client.s, client.t, result, None, catalog);
      }
    } else if * {
      client.Cancel();
      if old(client.s.active.Some?) {
        OnwardEvolves(old(client.s), old(client.t), client.s, client.t, None, catalog);
      }
    } else if * {
      DisableKeeps(client.s, client.t, catalog);
      var answer := client.Disable(caller);
      if answer.Accepted? && old(client.s.active.Some?) {
        OnwardEvolves(old(client.s).(disabled := true), old(client.t), client.s, client.t, None, catalog);
      }
    } else if * {
      var route: Route := Oracle();
      var fallback: Option<Route> := Oracle();
      var guarded: bool := Oracle();
      var _ := client.Reconfigure(route, fallback, if guarded then Injected else Open, caller);
    } else {
      var _ := client.ClaimConfiguration();
    }
  }

  lemma EvolvesReflexive(s: Client, t: Trace)
    ensures Evolves(s, t, s, t)
  {
  }

  lemma EvolvesFrom(s: Client, t: Trace, s1: Client, s2: Client, t2: Trace, s': Client)
    requires Evolves(s1, t, s2, t2)
    requires s1 == s.(configuring := s1.configuring, disabled := s1.disabled) && s' == s2.(configuring := s'.configuring)
    ensures Evolves(s, t, s', t2)
  {
  }

  lemma EvolvesTransitive(s: Client, t: Trace, s1: Client, t1: Trace, s2: Client, t2: Trace)
    requires Evolves(s, t, s1, t1) && Evolves(s1, t1, s2, t2)
    ensures Evolves(s, t, s2, t2)
  {
  }

  lemma RunSound(s: Client, t: Trace, catalog: int)
    requires Sound(s, t, catalog)
    ensures s.active.None? && !s.unclean ==> Spotless(t.log)
    ensures s.active.Some? ==> s.fault.None? && s.active.value.job
  {
  }

  // The configuration owner.

  const CAPACITY := 256

  datatype Approval = Approval(candidate: Candidate, bootstrap: bool)

  /** One activation: the revision it published, the candidate and the receipt it consumed. */
  datatype Activation = Activation(revision: nat, candidate: Candidate, receipt: nat)

  function Previous(state: State): Option<Candidate> {
    if state.Active? then Some(state.candidate) else state.previous
  }

  /** What a new candidate is compared with: what runs, or what ran last. */
  function Baseline(state: State): (r: seq<Evidence>)
    ensures match state
            case Active(_, candidate) => r == candidate.evidence
            case Disabled(_, previous) => if previous.Some? then r == previous.value.evidence else r == []
  {
    if Previous(state).None? then [] else Previous(state).value.evidence
  }

  /** The content of a candidate is bound route by route, role by role. */
  predicate Stageable(manifests: seq<Manifest>, host: Route, local: Option<Route>, policy: Policy, evidence: seq<Evidence>) {
    && host.Host? && (local.Some? ==> local.value.Local? && policy.allowFallback)
    && |manifests| == |evidence| == (if local.Some? then 2 else 1)
    && Bound(manifests[0], host, true) && (local.Some? ==> Bound(manifests[1], local.value, false))
    && (local.Some? ==> manifests[0].provider.id != manifests[1].provider.id)
    && forall i :: 0 <= i < |manifests| ==>
         evidence[i].manifest == manifests[i] && evidence[i].run.version == manifests[i].provider.model
  }

  predicate Bound(m: Manifest, route: Route, onHost: bool) {
    && m.onHost == onHost && m.provider.id == route.provider.id && m.provider.model == route.provider.model
    && m.provider.capabilities == route.provider.capabilities && !m.provider.enabled && m.provider.health.Down?
  }

  predicate Proven(run: ReplayRun) {
    run.pinned && run.deterministic && run.independent && run.consensus
  }

  predicate Passing(run: ReplayRun) {
    forall x :: x in run.outcomes ==> run.outcomes[x]
  }

  /** No comparison of the proposed run with its baseline holds it back. */
  predicate Promotes(baseline: ReplayRun, proposed: ReplayRun) {
    && Proven(baseline) && Proven(proposed) && proposed.bundle == baseline.bundle && proposed.source == baseline.source
    && proposed.outcomes.Keys == baseline.outcomes.Keys && Passing(proposed)
  }

  /** Retained roles improve on their baseline; new roles need an explicit bootstrap. */
  predicate Evaluated(evidence: seq<Evidence>, baseline: seq<Evidence>, bootstrap: bool) {
    forall i :: 0 <= i < |evidence| ==>
      if i >= |baseline| then bootstrap && Proven(evidence[i].run) && Passing(evidence[i].run)
      else baseline[i].bundle == evidence[i].bundle && Promotes(baseline[i].run, evidence[i].run)
  }

  /** Every route of the candidate is healthy now, its resources fit, and a revision is left. */
  predicate Runnable(health: map<Manifest, Observation>, revisions: nat, candidate: Candidate, now: int) {
    && (forall i :: 0 <= i < |candidate.manifests| ==> Fresh(health, candidate.manifests[i], candidate.policy, now))
    && WithinBudgets(candidate.manifests, candidate.policy) && revisions < 256
  }

  /** The route is the staged one with the manifest's provider, enabled and with the observed health: it keeps its
      peer, and its provider serves every fitting request for a service of the manifest. */
  ghost predicate Serves(route: Route, staged: Route, m: Manifest, observed: Health, catalog: int) {
    && route.Host? == staged.Host? && PeerOf(route) == PeerOf(staged)
    && route.provider.id == m.provider.id && route.provider.model == m.provider.model
    && route.provider.capabilities == m.provider.capabilities
    && route.provider.enabled && route.provider.health == observed
    && forall request: Request ::
         request.catalog == catalog && request.provider == m.provider.id && request.model == m.provider.model
         && request.service in m.provider.capabilities ==>
           ProviderDenial(request, route.provider, catalog).None?
  }

  /** A client bound to a candidate: its routes serve what the manifests say, and a new fitting request is admitted. */
  ghost predicate Installed(s: Client, candidate: Candidate, health: map<Manifest, Observation>, catalog: int) {
    && var ms := candidate.manifests;
       && |ms| == (if candidate.local.Some? then 2 else 1) && (forall i :: 0 <= i < |ms| ==> ms[i] in health)
       && Serves(s.host, candidate.host, ms[0], health[ms[0]].status, catalog)
       && s.local.Some? == candidate.local.Some?
       && (s.local.Some? ==> Serves(s.local.value, candidate.local.value, ms[1], health[ms[1]].status, catalog))
       && (s.host.Host? && (s.local.Some? ==> s.local.value.Local?))
       && forall request: Request ::
            request.catalog == catalog && request.provider == ms[0].provider.id && request.model == ms[0].provider.model
            && 1 <= request.budget <= 30000 && request.id !in s.history && |s.history| < 4096 && !s.inside && !s.configuring ==>
              StartDenial(s, request, catalog).None?
  }

  /** The begin ran while an activated revision was in force for it. */
  predicate Supported(b: Begin, history: map<nat, Candidate>) {
    && b.authority.Some? && b.authority.value.now == b.at
    && Authorizes(b.authority.value, b.provider, b.service)
    && b.authority.value.state.revision in history
    && history[b.authority.value.state.revision] == b.authority.value.state.candidate
  }

  predicate SupportedAll(bs: seq<Begin>, history: map<nat, Candidate>) {
    forall i :: 0 <= i < |bs| ==> Supported(bs[i], history)
  }

  predicate SupportedSince(log: seq<CallLog>, since: nat, history: map<nat, Candidate>) {
    forall i :: since <= i < |log| ==> SupportedAll(log[i].begins, history)
  }

  /** Everything begun for the owner's clients so far was supported. */
  predicate Backed(s: Client, t: Trace, since: nat, history: map<nat, Candidate>) {
    && since <= |t.log| && SupportedSince(t.log, since, history)
    && (s.active.Some? ==> SupportedAll(t.current.begins, history))
  }

  lemma OnwardBacked(
    s: Client, t: Trace, s': Client, t': Trace, k: Standing, since: nat, history: map<nat, Candidate>)
    requires s.active.Some? && Onward(s, t, s', t', Some(k)) && Backed(s, t, since, history)
    requires k.state.Active? ==> k.state.revision in history && history[k.state.revision] == k.state.candidate
    ensures Backed(s', t', since, history)
  {
  }

  /** Revisions increase, receipts are spent once, and each activation answers its own baseline. */
  predicate Ordering(activations: seq<Activation>, revision: nat, approvals: set<nat>, receipts: nat) {
    && (forall i :: 0 <= i < |activations| ==>
          && activations[i].revision <= revision && activations[i].candidate.baseline + 1 == activations[i].revision
          && activations[i].receipt < receipts && activations[i].receipt !in approvals)
    && (forall i, j :: 0 <= i < j < |activations| ==>
          activations[i].revision < activations[j].revision && activations[i].receipt != activations[j].receipt)
  }

  /** Later activations answer later baselines: of the candidates staged against one revision
      at most one was ever activated. */
  lemma OneActivationPerBaseline(activations: seq<Activation>, revision: nat, approvals: set<nat>, receipts: nat, i: nat, j: nat)
    requires Ordering(activations, revision, approvals, receipts) && i < j < |activations|
    ensures activations[i].candidate.baseline < activations[j].candidate.baseline
  {
  }

  /** Of one or two manifests, the providers' names are as many as the manifests unless two are the same. */
  lemma TwoNames(manifests: seq<Manifest>)
    requires 1 <= |manifests| <= 2
    ensures |set m | m in manifests :: m.provider.id| == |manifests| <==>
            |manifests| == 1 || manifests[0].provider.id != manifests[1].provider.id
  {
    var names := set m | m in manifests :: m.provider.id;
    if |manifests| == 1 {
      assert names == {manifests[0].provider.id};
    } else {
      assert names == {manifests[0].provider.id, manifests[1].provider.id};
    }
  }

  class Configuration {
    const gateway: GatewayClient
    const token: Option<nat>
    var state: State
    var staged: set<Candidate>
    var approvals: map<nat, Approval>
    var history: map<nat, Candidate>
    var health: map<Manifest, Observation>
    var lastTime: int
    var clockFault: bool
    var serials: nat
    var receipts: nat
    ghost var activations: seq<Activation>
    ghost var since: nat

    /** Nothing but the clock watermark moved. */
    twostate predicate Steady()
      reads this
    {
      && state == old(state) && staged == old(staged) && approvals == old(approvals) && history == old(history)
      && health == old(health) && serials == old(serials) && receipts == old(receipts)
      && activations == old(activations) && since == old(since)
      && (old(clockFault) ==> clockFault)
    }

    ghost predicate Ledger()
      reads this
    {
      && Ordering(activations, state.revision, approvals.Keys, receipts)
      && (forall r :: r in approvals ==> r < receipts)
      && (state.Active? ==> state.revision in history && history[state.revision] == state.candidate)
      && (forall r :: r in history ==> r <= state.revision)
      && (forall c :: c in staged ==>
            c.serial < serials && Stageable(c.manifests, c.host, c.local, c.policy, c.evidence))
    }

    ghost predicate Valid()
      reads this, gateway
    {
      && gateway.Valid() && token.Some? && gateway.s.owner == token && !gateway.s.configuring
      && (if gateway.s.permit.Owned? then gateway.s.permit.config == this
          else gateway.s.disabled && gateway.s.active.None?)
      && Ledger() && Backed(gateway.s, gateway.t, since, history)
    }

    /** Takes over an idle, unclaimed client. Only a configuration ever installs a configuration's permit. */
    constructor (gateway: GatewayClient, token: nat)
      requires gateway.Valid() && gateway.s.owner == Some(token) && gateway.s.disabled && !gateway.s.configuring
      requires gateway.s.active.None? && !gateway.s.permit.Owned?
      ensures Valid() && this.gateway == gateway && state == Disabled(0, None) && activations == []
    {
      this.gateway := gateway;
      this.token := Some(token);
      state := Disabled(0, None);
      staged, approvals, history, health := {}, map[], map[], map[];
      lastTime, clockFault, serials, receipts := 0, false, 0, 0;
      activations, since := [], |gateway.t.log|;
    }

    method Time(now: int) returns (ok: bool)
      modifies this`lastTime, this`clockFault
      ensures ok <==> !old(clockFault) && now >= old(lastTime)
      ensures ok ==> lastTime == now && !clockFault
      ensures !ok ==> clockFault && lastTime == old(lastTime)
    {
      if now < lastTime {
        clockFault := true;
      }
      if clockFault {
        return false;
      }
      lastTime := now;
      return true;
    }

    /** The gateway's question before every begin: yes exactly when the active revision covers it. */
    method Permit(provider: Provider, service: Id, now: int) returns (ok: bool)
      modifies this`lastTime, this`clockFault
      ensures old(clockFault) ==> clockFault
      ensures ok <==> !old(clockFault) && now >= old(lastTime) && Authorizes(Authority(state, health, now), provider, service)
    {
      var timely := Time(now);
      if !timely || !state.Active? {
        return false;
      }
      var candidate := state.candidate;
      var k := Matching(candidate.manifests, provider);
      if k == |candidate.manifests| || service !in candidate.manifests[k].provider.capabilities {
        return false;
      }
      ok := Healthy(candidate.manifests[k], candidate.policy, now);
      if ok {
        ok := CheckBudgets(candidate.manifests, candidate.policy);
      }
    }

    /** A manifest's last observation is recent, and good enough for the policy. */
    method Healthy(m: Manifest, policy: Policy, now: int) returns (ok: bool)
      ensures ok <==> Fresh(health, m, policy, now)
    {
      if m !in health {
        return false;
      }
      var age := now - health[m].at;
      if age < 0 || age > policy.healthTtl {
        return false;
      }
      match health[m].status
      case Healthy => return true;
      case Impaired => return policy.allowDegraded;
      case Down => return false;
    }

    /** The resources of the manifests in one place, added up. */
    method Sum(ms: seq<Manifest>, onHost: bool) returns (total: Resources)
      ensures total == Total(ms, onHost)
    {
      total := Resources(0, 0, 0, 0, 0);
      for i := |ms| downto 0
        invariant total == Total(ms[i..], onHost)
      {
        assert ms[i..][1..] == ms[i + 1..];
        if ms[i].onHost == onHost {
          var r := ms[i].resources;
          total := Resources(r.ram + total.ram, r.accelerator + total.accelerator, r.disk + total.disk, r.cpu + total.cpu,
                             r.slots + total.slots);
        }
      }
      assert ms[0..] == ms;
    }

    method CheckBudgets(ms: seq<Manifest>, policy: Policy) returns (ok: bool)
      ensures ok <==> WithinBudgets(ms, policy)
    {
      var host := Sum(ms, true);
      var vm := Sum(ms, false);
      var hostRam := if policy.sharedHost then host.ram + host.accelerator else host.ram;
      var vmRam := if policy.sharedVm then vm.ram + vm.accelerator else vm.ram;
      var (h, v) := (policy.hostBudget, policy.vmBudget);
      ok := hostRam <= h.ram && host.accelerator <= h.accelerator && host.disk <= h.disk && host.cpu <= h.cpu
            && host.slots <= h.slots
            && vmRam <= v.ram && vm.accelerator <= v.accelerator && vm.disk <= v.disk && vm.cpu <= v.cpu && vm.slots <= v.slots;
    }

    /** The comparison of a proposed run with its baseline holds nothing against it. */
    method Promotion(active: ReplayRun, proposed: ReplayRun) returns (promote: bool)
      ensures promote <==> Promotes(active, proposed)
    {
      var regressions := set x | x in active.outcomes
                                 && active.outcomes[x] && !(x in proposed.outcomes && proposed.outcomes[x]);
      promote := active.pinned && active.deterministic && active.independent && active.consensus
                 && proposed.pinned && proposed.deterministic && proposed.independent && proposed.consensus
                 && proposed.bundle == active.bundle && proposed.source == active.source
                 && proposed.outcomes.Keys == active.outcomes.Keys && regressions == {} && false !in proposed.outcomes.Values;
    }

    /** Item by item against the baseline of the state. */
    method Evaluation(evidence: seq<Evidence>, bootstrap: bool) returns (ok: bool)
      ensures ok <==> Evaluated(evidence, Baseline(state), bootstrap)
    {
      var baseline := Baseline(state);
      for i := 0 to |evidence|
        invariant Evaluated(evidence[..i], baseline, bootstrap)
      {
        var item := evidence[i];
        assert evidence[..i + 1][i] == item;
        if i >= |baseline| {
          ok := bootstrap && item.run.pinned && item.run.deterministic && item.run.independent && item.run.consensus
                && false !in item.run.outcomes.Values;
        } else {
          ok := Promotion(baseline[i].run, item.run);
          ok := ok && baseline[i].bundle == item.bundle;
        }
        if !ok {
          return;
        }
      }
      assert evidence[..|evidence|] == evidence;
      ok := true;
    }

    /** Route by route and role by role, what may be staged. */
    method Binds(manifests: seq<Manifest>, host: Route, local: Option<Route>, policy: Policy, evidence: seq<Evidence>)
      returns (ok: bool)
      ensures ok <==> Stageable(manifests, host, local, policy, evidence)
    {
      if !host.Host? || (local.Some? && (!local.value.Local? || !policy.allowFallback)) {
        return false;
      }
      var routes := [host] + if local.Some? then [local.value] else [];
      if |manifests| != |routes| || |evidence| != |routes| {
        return false;
      }
      var bound := forall i :: 0 <= i < |routes| ==>
                     manifests[i].onHost == (i == 0)
                     && routes[i].provider.(enabled := false, health := Down) == manifests[i].provider;
      if !bound || |set m | m in manifests :: m.provider.id| != |manifests| {
        TwoNames(manifests);
        return false;
      }
      TwoNames(manifests);
      ok := forall i :: 0 <= i < |manifests| ==>
              evidence[i].manifest == manifests[i] && evidence[i].run.version == manifests[i].provider.model;
    }

    /** Configuration state is closed to callbacks. */
    predicate Open()
      reads gateway
    {
      !gateway.s.inside && !gateway.s.configuring
    }

    method Stage(manifests: seq<Manifest>, host: Route, local: Option<Route>, policy: Policy, evidence: seq<Evidence>)
      returns (staging: Option<Candidate>)
      requires Open() ==> Valid()
      modifies this`staged, this`serials
      ensures staging.Some? <==> Open() && Stageable(manifests, host, local, policy, evidence) && |old(staged)| < CAPACITY
      ensures staging.None? ==> staged == old(staged)
      ensures staging.Some? ==>
                && staging == Some(Candidate(old(serials), state.revision, manifests, host, local, policy, evidence))
                && staged == old(staged) + {staging.value}
      ensures Open() ==> Valid()
    {
      hide Backed, Sound, Stageable, Ordering;
      if !Open() {
        return None;
      }
      var ok := Binds(manifests, host, local, policy, evidence);
      if !ok || |staged| >= 256 {
        return None;
      }
      staging := Some(Candidate(serials, state.revision, manifests, host, local, policy, evidence));
      serials := serials + 1;
      staged := staged + {staging.value};
    }

    /** An observation is taken exactly of a staged candidate's own manifest, and never goes back in time. */
    method Observe(candidate: Candidate, provider: Id, status: Health, at: int) returns (ok: bool)
      requires Open() ==> Valid()
      modifies this`health
      ensures ok <==> && Open() && candidate in staged && at >= 0 && Named(candidate.manifests, provider) < |candidate.manifests|
                      && var m := candidate.manifests[Named(candidate.manifests, provider)];
                         m in old(health) ==> old(health)[m].at <= at
      ensures ok ==> health == old(health)[candidate.manifests[Named(candidate.manifests, provider)] := Observation(status, at)]
      ensures !ok ==> health == old(health)
      ensures Open() ==> Valid()
    {
      hide Backed, Sound, Stageable, Ordering;
      if !Open() || candidate !in staged || at < 0 {
        return false;
      }
      var k := Named(candidate.manifests, provider);
      if k == |candidate.manifests| {
        return false;
      }
      var m := candidate.manifests[k];
      if m in health && at < health[m].at {
        return false;
      }
      health := health[m := Observation(status, at)];
      return true;
    }

    method Approve(candidate: Candidate, bootstrap: bool) returns (receipt: Option<nat>)
      requires Open() ==> Valid()
      modifies this`approvals, this`receipts
      ensures receipt.Some? <==>
              && Open() && candidate in staged && candidate.baseline == state.revision
              && bootstrap == (|candidate.evidence| > |Baseline(state)|) && |old(approvals)| < CAPACITY
      ensures receipt.None? ==> approvals == old(approvals) && receipts == old(receipts)
      ensures receipt.Some? ==>
                && receipt.value == old(receipts) && receipts == old(receipts) + 1
                && approvals == old(approvals)[receipt.value := Approval(candidate, bootstrap)]
      ensures Open() ==> Valid()
    {
      hide Backed, Sound;
      if !Open() || candidate !in staged || bootstrap != (|candidate.evidence| > |Baseline(state)|)
         || candidate.baseline != state.revision || |approvals| >= CAPACITY {
        return None;
      }
      receipt := Some(receipts);
      receipts := receipts + 1;
      approvals := approvals[receipt.value := Approval(candidate, bootstrap)];
    }

    method Reject(candidate: Candidate) returns (ok: bool)
      requires Open() ==> Valid()
      modifies this`staged, this`approvals
      ensures ok <==> Open() && candidate in old(staged) && candidate.baseline == state.revision
      ensures !ok ==> staged == old(staged) && approvals == old(approvals)
      ensures ok ==> staged == old(staged) - {candidate}
                     && approvals == map r | r in old(approvals) && old(approvals)[r].candidate != candidate :: old(approvals)[r]
      ensures Open() ==> Valid()
    {
      hide Backed, Sound;
      if !Open() || candidate !in staged || candidate.baseline != state.revision {
        return false;
      }
      staged := staged - {candidate};
      approvals := map r | r in approvals && approvals[r].candidate != candidate :: approvals[r];
      return true;
    }

    /** Everything activation demands besides a forward clock and an idle, faultless gateway. */
    predicate Eligible(candidate: Candidate, receipt: nat)
      reads this
    {
      && candidate in staged && candidate.baseline == state.revision
      && receipt in approvals && approvals[receipt].candidate == candidate
      && Evaluated(candidate.evidence, Baseline(state), approvals[receipt].bootstrap)
    }

    /** Publishes a candidate as the next revision and rebinds the gateway to it, or changes neither. */
    method Activate(candidate: Candidate, receipt: nat, now: int) returns (ok: bool)
      requires Open() ==> Valid()
      modifies this, gateway`s, gateway`t, gateway`moments
      ensures ok <==> && old(Open()) && old(Eligible(candidate, receipt)) && !old(clockFault) && now >= old(lastTime)
                      && Runnable(old(health), |old(history)|, candidate, now)
                      && old(gateway.s.active.None? && gateway.s.terminal.None? && gateway.s.fault.None?)
      ensures !ok ==> Steady() && gateway.s == old(gateway.s) && gateway.t == old(gateway.t)
      ensures ok ==>
                && state == Active(old(state.revision) + 1, candidate)
                && approvals == old(approvals) - {receipt}
                && history == old(history)[state.revision := candidate]
                && activations == old(activations) + [Activation(state.revision, candidate, receipt)]
                && gateway.s.permit == Owned(this) && !gateway.s.disabled && gateway.t == old(gateway.t)
                && gateway.s.history == old(gateway.s.history) && gateway.s.fault == old(gateway.s.fault)
                && staged == old(staged) && health == old(health)
                && Installed(gateway.s, candidate, health, gateway.catalogVersion)
      ensures old(Open()) ==> Valid()
    {
      hide Backed, Sound, Stageable, Evaluated, Fresh, WithinBudgets, Runnable, Ordering, Installed;
      if !Open() || candidate !in staged || candidate.baseline != state.revision
         || receipt !in approvals || approvals[receipt].candidate != candidate {
        return false;
      }
      var evaluated := Evaluation(candidate.evidence, approvals[receipt].bootstrap);
      if !evaluated {
        return false;
      }
      var timely := Time(now);
      if !timely {
        return false;
      }
      var runnable := Runs(candidate, now);
      if !runnable {
        return false;
      }
      var rebound := Rebind(candidate, now);
      if rebound.Rejected? {
        return false;
      }
      BackedIdle(old(gateway.s), gateway.s, gateway.t, since, history);
      Publish(candidate, receipt);
      return true;
    }

    /** Every manifest's health now, the budgets, and a revision that is left. */
    method Runs(candidate: Candidate, now: int) returns (ok: bool)
      ensures ok <==> Runnable(health, |history|, candidate, now)
    {
      hide WithinBudgets, Fresh;
      for i := 0 to |candidate.manifests|
        invariant forall k :: 0 <= k < i ==> Fresh(health, candidate.manifests[k], candidate.policy, now)
      {
        var healthy := Healthy(candidate.manifests[i], candidate.policy, now);
        if !healthy {
          return false;
        }
      }
      ok := CheckBudgets(candidate.manifests, candidate.policy);
      ok := ok && |history| < 256;
    }

    method Publish(candidate: Candidate, receipt: nat)
      requires Ledger() && Eligible(candidate, receipt) && Backed(gateway.s, gateway.t, since, history)
      modifies this`state, this`history, this`approvals, this`activations
      ensures Ledger() && Backed(gateway.s, gateway.t, since, history)
      ensures state == Active(old(state.revision) + 1, candidate)
      ensures history == old(history)[state.revision := candidate] && approvals == old(approvals) - {receipt}
      ensures activations == old(activations) + [Activation(state.revision, candidate, receipt)]
    {
      hide Backed, Sound, Stageable, Evaluated, Ordering;
      state := Active(state.revision + 1, candidate);
      history := history[state.revision := candidate];
      approvals := approvals - {receipt};
      activations := activations + [Activation(state.revision, candidate, receipt)];
      BackedGrows(gateway.s, gateway.t, since, old(history), history);
      OrderingGrows(old(activations), old(state.revision), old(approvals.Keys), candidate, receipt, receipts);
    }

    /** An earlier revision's content becomes a fresh candidate, never active by itself. */
    method Restore(revision: nat, evidence: seq<Evidence>) returns (staging: Option<Candidate>)
      requires Open() ==> Valid()
      modifies this`staged, this`serials
      ensures revision !in history ==> staging.None?
      ensures staging.None? ==> staged == old(staged)
      ensures staging.Some? ==>
                && staging == Some(history[revision].(serial := old(serials), baseline := state.revision, evidence := evidence))
                && staged == old(staged) + {staging.value} && staging.value !in old(staged)
      ensures Open() ==> Valid()
    {
      hide Backed, Sound, Stageable, Ordering;
      if !Open() || revision !in history {
        return None;
      }
      var c := history[revision];
      staging := Stage(c.manifests, c.host, c.local, c.policy, evidence);
    }

    /** Binds the gateway's routes to a candidate's manifests and their observed health. */
    method Rebind(candidate: Candidate, now: int) returns (answer: Admission)
      requires gateway.Valid() && gateway.s.owner == token && Runnable(health, |history|, candidate, now)
      requires Stageable(candidate.manifests, candidate.host, candidate.local, candidate.policy, candidate.evidence)
      modifies gateway`s
      ensures gateway.Valid() && gateway.t == old(gateway.t)
      ensures answer.Accepted? <==> old(gateway.s.active.None? && gateway.s.terminal.None? && gateway.s.fault.None?)
      ensures answer.Rejected? ==> gateway.s == old(gateway.s)
      ensures answer.Accepted? ==>
                && gateway.s == old(gateway.s).(host := gateway.s.host, local := gateway.s.local, permit := Owned(this),
                                                disabled := false)
                && Installed(gateway.s, candidate, health, gateway.catalogVersion)
    {
      hide Sound, WithinBudgets;
      var ms := candidate.manifests;
      assert Fresh(health, ms[0], candidate.policy, now);
      var host := Host(ms[0].provider.(enabled := true, health := health[ms[0]].status), candidate.host.peer);
      var local := None;
      if candidate.local.Some? {
        assert Fresh(health, ms[1], candidate.policy, now);
        local := Some(Local(ms[1].provider.(enabled := true, health := health[ms[1]].status)));
      }
      answer := gateway.Reconfigure(host, local, Owned(this), token);
    }

    /** Closes admission under a new revision and ends whatever was running. */
    method Disable() returns (ok: bool)
      requires Open() ==> Valid()
      modifies this, gateway`s, gateway`t, gateway`moments
      ensures ok <==> old(Open())
      ensures !ok ==> Steady() && gateway.s == old(gateway.s) && gateway.t == old(gateway.t)
      ensures ok ==>
                && state.Disabled? && state.revision == old(state.revision) + 1
                && state.previous == (match old(state)
                                      case Active(_, candidate) => Some(candidate)
                                      case Disabled(_, previous) => previous)
                && gateway.s.disabled && gateway.s.active.None?
                && staged == old(staged) && approvals == old(approvals) && history == old(history)
                && health == old(health) && activations == old(activations)
      ensures old(Open()) ==> Valid() && Evolves(old(gateway.s), old(gateway.t), gateway.s, gateway.t)
    {
      hide Backed, Sound, Ordering, Onward, Stageable, Evolves, Authorizes;
      if !Open() {
        return false;
      }
      state := Disabled(state.revision + 1, Previous(state));
      OrderingLater(activations, state.revision - 1, approvals.Keys, receipts);
      gateway.s := gateway.s.(configuring := true);
      ConfiguringKeeps(old(gateway.s), gateway.s, gateway.t, gateway.catalogVersion, since, history);
      ConfiguringKeeps(gateway.s, gateway.s.(disabled := true), gateway.t, gateway.catalogVersion, since, history);
      ghost var s1 := gateway.s;
      var _ := gateway.Disable(token);
      if s1.active.Some? {
        assert gateway.Standings() == Some(Standing(state, health));
        OnwardBacked(s1.(disabled := true), old(gateway.t), gateway.s, gateway.t, Standing(state, health), since, history);
        OnwardEvolves(s1.(disabled := true), old(gateway.t), gateway.s, gateway.t, gateway.Standings(), gateway.catalogVersion);
      } else {
        EvolvesReflexive(s1.(disabled := true), gateway.t);
      }
      EvolvesFrom(old(gateway.s), old(gateway.t), s1.(disabled := true), gateway.s, gateway.t, gateway.s.(configuring := false));
      ConfiguringKeeps(gateway.s, gateway.s.(configuring := false), gateway.t, gateway.catalogVersion, since, history);
      gateway.s := gateway.s.(configuring := false);
      return true;
    }
  }

  lemma ConfiguringKeeps(s: Client, s': Client, t: Trace, catalog: int, since: nat, history: map<nat, Candidate>)
    requires s' == s.(configuring := s'.configuring, disabled := s'.disabled)
    ensures Sound(s, t, catalog) ==> Sound(s', t, catalog)
    ensures Backed(s, t, since, history) ==> Backed(s', t, since, history)
  {
  }

  lemma BackedIdle(s: Client, s': Client, t: Trace, since: nat, history: map<nat, Candidate>)
    requires Backed(s, t, since, history) && s.active.None? && s'.active.None?
    ensures Backed(s', t, since, history)
  {
  }

  lemma OrderingLater(activations: seq<Activation>, revision: nat, approvals: set<nat>, receipts: nat)
    requires Ordering(activations, revision, approvals, receipts)
    ensures Ordering(activations, revision + 1, approvals, receipts)
  {
  }

  lemma OrderingGrows(
    activations: seq<Activation>, revision: nat, approvals: set<nat>, candidate: Candidate, receipt: nat, receipts: nat)
    requires Ordering(activations, revision, approvals, receipts)
    requires candidate.baseline == revision && receipt in approvals && receipt < receipts
    ensures Ordering(activations + [Activation(revision + 1, candidate, receipt)], revision + 1, approvals - {receipt}, receipts)
  {
  }

  /** Any number of operations on a configured client: the owner's, and everyone else's. */
  method AnyConfiguredRun(config: Configuration, steps: nat)
    requires config.Valid()
    modifies config, config.gateway
    ensures config.Valid() && Evolves(old(config.gateway.s), old(config.gateway.t), config.gateway.s, config.gateway.t)
    ensures config.state.revision >= old(config.state.revision) && old(config.activations) <= config.activations
  {
    hide Sound, Backed, Evolves, Ordering, Stageable;
    ghost var (s0, t0) := (config.gateway.s, config.gateway.t);
    EvolvesReflexive(s0, t0);
    for i := 0 to steps
      invariant config.Valid() && Evolves(s0, t0, config.gateway.s, config.gateway.t)
      invariant config.state.revision >= old(config.state.revision) && old(config.activations) <= config.activations
    {
      ghost var (s1, t1) := (config.gateway.s, config.gateway.t);
      config.gateway.world := Oracle();
      if * {
        AnyClientStep(config);
      } else {
        AnyOwnerStep(config);
      }
      EvolvesTransitive(s0, t0, s1, t1, config.gateway.s, config.gateway.t);
    }
  }

  method AnyClientStep(config: Configuration)
    requires config.Valid()
    modifies config, config.gateway
    ensures config.Valid() && config.Steady()
    ensures Evolves(old(config.gateway.s), old(config.gateway.t), config.gateway.s, config.gateway.t)
  {
    hide Sound, Onward, Polled, Backed, Ordering, Stageable;
    var client := config.gateway;
    ghost var k := client.Standings();
    ghost var (s0, t0, catalog) := (client.s, client.t, client.catalogVersion);
    if * {
      var request: Request := Oracle();
      var answer := client.Start(request);
      if answer.Accepted? {
        StartEvolves(s0, t0, request, client.s, client.t, k, catalog);
        OpenBacked(s0, t0, request, config.since, config.history);
        OnwardBacked(Opened(s0, request), Opening(s0, t0, request), client.s, client.t, k.value, config.since, config.history);
      }
    } else if * {
      var result := client.Poll();
      PollEvolves(s0, t0, client.s, client.t, result, k, catalog);
      PollBacked(s0, t0, client.s, client.t, result, k, config.since, config.history);
    } else if * {
      client.Cancel();
      if s0.active.Some? {
        OnwardEvolves(s0, t0, client.s, client.t, k, catalog);
        OnwardBacked(s0, t0, client.s, client.t, k.value, config.since, config.history);
      }
    } else {
      AnyForeignStep(config);
    }
  }

  /** Anyone but the owner tries to close, rebind or claim the client, and changes nothing. */
  method AnyForeignStep(config: Configuration)
    requires config.Valid()
    modifies config, config.gateway
    ensures config.Valid() && config.Steady()
    ensures config.gateway.s == old(config.gateway.s) && config.gateway.t == old(config.gateway.t)
  {
    hide Sound, Backed, Ordering, Stageable;
    var client := config.gateway;
    var caller: Option<nat> := Oracle();
    if caller == config.token {
      return;
    }
    if * {
      var _ := client.Disable(caller);
    } else if * {
      var route: Route := Oracle();
      var fallback: Option<Route> := Oracle();
      var guard: Permit := Oracle();
      var _ := client.Reconfigure(route, fallback, guard, caller);
    } else {
      var _ := client.ClaimConfiguration();
    }
  }

  lemma OpenBacked(s: Client, t: Trace, request: Request, since: nat, history: map<nat, Candidate>)
    requires Backed(s, t, since, history)
    ensures Backed(Opened(s, request), Opening(s, t, request), since, history)
  {
  }

  lemma PollBacked(
    s: Client, t: Trace, s': Client, t': Trace, result: Option<Terminal>, k: Option<Standing>, since: nat,
    history: map<nat, Candidate>)
    requires Polled(s, t, s', t', result, k) && Backed(s, t, since, history) && (s.active.Some? ==> k.Some?)
    requires k.Some? && k.value.state.Active? ==>
               k.value.state.revision in history && history[k.value.state.revision] == k.value.state.candidate
    ensures Backed(s', t', since, history)
    ensures s.active.None? ==> s'.active.None? && s'.disabled == s.disabled
  {
    if s.active.Some? {
      OnwardBacked(s, t, s'.(terminal := result), t'.(delivered := t.delivered), k.value, since, history);
    }
    hide SupportedSince, SupportedAll, Onward;
  }

  method AnyOwnerStep(config: Configuration)
    requires config.Valid()
    modifies config, config.gateway
    ensures config.Valid()
    ensures Evolves(old(config.gateway.s), old(config.gateway.t), config.gateway.s, config.gateway.t)
    ensures config.state.revision >= old(config.state.revision) && old(config.activations) <= config.activations
  {
    hide Sound, Onward, Backed, Ordering, Stageable;
    var candidate: Option<Candidate> := Oracle();
    var number: nat := Oracle();
    var time: int := Oracle();
    var evidence: seq<Evidence> := Oracle();
    if candidate.None? {
      var _ := config.Disable();
    } else if * {
      var c := candidate.value;
      var _ := config.Stage(c.manifests, c.host, c.local, c.policy, c.evidence);
    } else if * {
      var _ := config.Approve(candidate.value, time > 0);
    } else if * {
      var status: Health := Oracle();
      var provider: Id := Oracle();
      var _ := config.Observe(candidate.value, provider, status, time);
    } else if * {
      var _ := config.Reject(candidate.value);
    } else if * {
      var _ := config.Restore(number, evidence);
    } else {
      var _ := config.Activate(candidate.value, number, time);
    }
  }

  lemma BackedGrows(s: Client, t: Trace, since: nat, history: map<nat, Candidate>, history': map<nat, Candidate>)
    requires Backed(s, t, since, history)
    requires forall r :: r in history ==> r in history' && history'[r] == history[r]
    ensures Backed(s, t, since, history')
  {
  }
}

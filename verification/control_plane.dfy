/**
 Synchronous dispatch over a shared append-only journal. Any number of planes use
 one journal. What clocks, identifiers, guards, executors and storage say, and which
 operations they call back while they run, to any depth, is a script of answers.
 */
module ControlPlane {
  import opened Wrappers

  type Id = string

  datatype Kind = Text | Whole | Number | Truth

  /** The type of an argument's value. */
  datatype Sort = Str | Int | Float | Bool

  datatype Risk = Safe | Confirm | Blocked

  datatype Capability = Capability(id: Id, version: int, enabled: bool, risk: Risk, arguments: map<Id, Kind>)

  datatype Command = Command(id: Id, capability: Id, version: int, profile: Id, voice: bool, arguments: map<Id, Sort>)

  datatype Policy = Policy(id: Id, enabled: bool, allowed: set<Id>, confirmation: set<Id>)

  datatype Profile = Profile(id: Id, policy: Id, enabled: bool, voice: bool)

  datatype Status = Success | Failure | Canceled | Uncertain | Denied

  datatype Note = Started | Finished(status: Status) | Preview | Confirmed

  /** A journal record; `payload` is everything but its identity, command and note. */
  datatype Record = Record(event: Id, command: Id, note: Note, payload: int)

  /** A pending confirmation. Tokens are fresh numbers, as uuid4 makes them. */
  datatype Grant = Grant(token: nat, command: Command, expires: int, key: Id)

  /** One executor call: the plane's version then, the journal lengths when its dispatch read and when it ran,
      the grant it consumed with the clock reading and key that confirmed it, which two entries of the
      guard's answers let it pass, how many previews had been shown, and how many answers were still to come:
      the first of them is the executor's. */
  datatype Run = Run(command: Command, version: int, read: nat, done: nat, grant: Option<Grant>, at: int, key: Id,
                     guarded: bool, first: nat, last: nat, shown: nat, left: nat)

  datatype Plane = Plane(catalog: map<Id, Capability>, version: int, users: nat, seen: set<Id>, grants: map<nat, Grant>)

  datatype Operation =
    | Dispatching(command: Command, canceled: bool, guarded: bool)
    | Confirming(token: nat, listed: bool, key: Id, approved: bool, guarded: bool)
    | Requesting(command: Command, key: Id)
    | Observing(command: Command, note: Note)
    | Replacing(entries: seq<Capability>, expected: int, version: int)

  /** One answer from outside: whether it came, the operations it called back meanwhile, and what it said. */
  datatype Answer = Answer(ok: bool, calls: seq<Operation>, number: int, name: Id, status: Option<Status>, yes: bool)

  /** A guard's answer about a command, and the journal length when it came. */
  datatype Guard = Guard(command: Id, at: nat, yes: bool)

  /** What outlives a plane: the journal, the tokens issued, the effects executed, the guards' answers and the
      commands whose preview was journaled, in order, and the answers still to come. */
  datatype World = World(
    events: seq<Record>, closed: bool, issued: nat, runs: seq<Run>, guards: seq<Guard>, shown: seq<Id>,
    answers: seq<Answer>)

  datatype Denial =
    | ProfileDenied | VoiceDisabled | PolicyDenied | CapabilityUnavailable | CatalogStale | RiskBlocked
    | ConfirmationRequired | ArgumentsInvalid | Duplicate | ContextStale | JournalUnavailable
    | ConfirmationInvalid | ConfirmationExpired | ExecutorUncertain

  /** A result, or the exception of a collaborator that dispatch does not catch. */
  datatype Result = Raised | Result(status: Status, error: Option<Denial>)

  const PENDING_LIMIT := 128
  const CATALOG_LIMIT := 256
  const LIFETIME := 30000

  predicate Accepts(kind: Kind, sort: Sort) {
    match kind
    case Text => sort == Str
    case Whole => sort == Int
    case Number => sort == Int || sort == Float
    case Truth => sort == Bool
  }

  /** The policy decision on one command against one catalog. */
  function Refusal(p: Plane, policy: Policy, profile: Profile, c: Command, confirmed: bool): Option<Denial> {
    if !profile.enabled || profile.policy != policy.id || c.profile != profile.id then Some(ProfileDenied)
    else if c.voice && !profile.voice then Some(VoiceDisabled)
    else if !policy.enabled || c.capability !in policy.allowed then Some(PolicyDenied)
    else if c.capability !in p.catalog || !p.catalog[c.capability].enabled then Some(CapabilityUnavailable)
    else
      var capability := p.catalog[c.capability];
      if capability.version != c.version then Some(CatalogStale)
      else if capability.risk == Blocked then Some(RiskBlocked)
      else if !confirmed && (capability.risk == Confirm || c.capability in policy.confirmation) then Some(ConfirmationRequired)
      else if c.arguments.Keys != capability.arguments.Keys
              || exists x :: x in c.arguments && !Accepts(capability.arguments[x], c.arguments[x]) then Some(ArgumentsInvalid)
      else None
  }

  /** A whole number may stand for a number, and nothing else for another kind. */
  ghost predicate Suits(kind: Kind, sort: Sort) {
    && (sort.Str? ==> kind.Text?) && (sort.Bool? ==> kind.Truth?)
    && (sort.Int? ==> kind.Whole? || kind.Number?) && (sort.Float? ==> kind.Number?)
  }

  /** What it takes to be authorized. */
  ghost predicate Authorized(p: Plane, policy: Policy, profile: Profile, c: Command, confirmed: bool) {
    && profile.enabled && policy.enabled && profile.policy == policy.id && profile.id == c.profile
    && (c.voice ==> profile.voice) && c.capability in policy.allowed
    && c.capability in p.catalog
    && var k := p.catalog[c.capability];
       && k.enabled && k.version == c.version && k.risk != Blocked
       && (k.risk == Confirm || c.capability in policy.confirmation ==> confirmed)
       && (forall x :: x in k.arguments <==> x in c.arguments)
       && (forall x :: x in k.arguments && x in c.arguments ==> Suits(k.arguments[x], c.arguments[x]))
  }

  lemma RefusedUnlessAuthorized(p: Plane, policy: Policy, profile: Profile, c: Command, confirmed: bool)
    ensures Refusal(p, policy, profile, c, confirmed).None? <==> Authorized(p, policy, profile, c, confirmed)
  {
    if c.capability in p.catalog {
      assert c.arguments.Keys == p.catalog[c.capability].arguments.Keys <==>
             forall x :: x in p.catalog[c.capability].arguments <==> x in c.arguments;
    }
  }

  /** What each code of a refusal stands for. */
  ghost predicate Cause(d: Denial, p: Plane, policy: Policy, profile: Profile, c: Command, confirmed: bool) {
    match d
    case ProfileDenied => !(profile.enabled && profile.policy == policy.id && c.profile == profile.id)
    case VoiceDisabled => c.voice && !profile.voice
    case PolicyDenied => !(policy.enabled && c.capability in policy.allowed)
    case CapabilityUnavailable => c.capability in p.catalog ==> !p.catalog[c.capability].enabled
    case CatalogStale => c.capability in p.catalog && p.catalog[c.capability].version != c.version
    case RiskBlocked => c.capability in p.catalog && p.catalog[c.capability].risk.Blocked?
    case ConfirmationRequired =>
      !confirmed && (c.capability in policy.confirmation || (c.capability in p.catalog && p.catalog[c.capability].risk.Confirm?))
    case ArgumentsInvalid =>
      && c.capability in p.catalog
      && var wanted := p.catalog[c.capability].arguments;
         exists x :: (x in wanted <==> x !in c.arguments)
                     || (x in wanted && x in c.arguments && !Suits(wanted[x], c.arguments[x]))
    case _ => false
  }

  /** The codes in the order in which they are looked for. */
  const ORDER := [ProfileDenied, VoiceDisabled, PolicyDenied, CapabilityUnavailable, CatalogStale, RiskBlocked,
                  ConfirmationRequired, ArgumentsInvalid]

  /** A refusal names its cause, and no cause that is looked for earlier applies. */
  lemma RefusalNamed(p: Plane, policy: Policy, profile: Profile, c: Command, confirmed: bool, n: nat)
    requires n < |ORDER|
    ensures Refusal(p, policy, profile, c, confirmed) == Some(ORDER[n]) <==>
              && Cause(ORDER[n], p, policy, profile, c, confirmed)
              && forall k :: 0 <= k < n ==> !Cause(ORDER[k], p, policy, profile, c, confirmed)
  {
    assert ORDER[0].ProfileDenied? && ORDER[1].VoiceDisabled? && ORDER[2].PolicyDenied? && ORDER[3].CapabilityUnavailable?;
    assert ORDER[4].CatalogStale? && ORDER[5].RiskBlocked? && ORDER[6].ConfirmationRequired? && ORDER[7].ArgumentsInvalid?;
    if c.capability in p.catalog {
      assert c.arguments.Keys == p.catalog[c.capability].arguments.Keys <==>
             forall x :: x in p.catalog[c.capability].arguments <==> x in c.arguments;
    }
  }

  /** Commands with an execution event; observations do not count. */
  function Known(events: seq<Record>): set<Id> {
    set r | r in events && (r.note.Started? || r.note.Finished?) :: r.command
  }

  predicate Previewed(events: seq<Record>, id: Id) {
    exists i :: 0 <= i < |events| && events[i].note.Preview? && events[i].command == id
  }

  predicate Intended(events: seq<Record>, id: Id) {
    exists i :: 0 <= i < |events| && events[i].note.Started? && events[i].command == id
  }

  // What every state keeps.

  /** A guarded run: a yes after its dispatch read the journal, and another one after its intent was journaled. */
  predicate Watched(r: Run, w: World) {
    && r.first < r.last < |w.guards|
    && w.guards[r.first].yes && w.guards[r.first].command == r.command.id && r.read <= w.guards[r.first].at
    && w.guards[r.last].yes && w.guards[r.last].command == r.command.id && w.guards[r.last].at <= r.done <= |w.events|
    && Intended(w.events[..w.guards[r.last].at], r.command.id)
  }

  /** The run was of the current catalog, and either nothing had been previewed when its dispatch
      read the journal, or it consumed an unexpired grant of this very command, under its key. */
  predicate Sanctioned(r: Run, w: World) {
    && r.command.version == r.version
    && r.read <= r.done <= |w.events| && Intended(w.events[..r.done], r.command.id)
    && (r.guarded ==> Watched(r, w))
    && (r.grant.None? ==> !Previewed(w.events[..r.read], r.command.id))
    && (r.grant.Some? ==>
          && r.grant.value.command == r.command && r.at < r.grant.value.expires && r.key == r.grant.value.key
          && r.grant.value.token < w.issued)
  }

  /** At most one run per command, each after its intent was journaled; at most one per grant. */
  predicate Recorded(w: World) {
    && (forall i :: 0 <= i < |w.runs| ==> Intended(w.events, w.runs[i].command.id) && Sanctioned(w.runs[i], w))
    && (forall i, j :: 0 <= i < j < |w.runs| ==>
          && w.runs[i].command.id != w.runs[j].command.id
          && (w.runs[i].grant.Some? && w.runs[j].grant.Some? ==> w.runs[i].grant.value.token != w.runs[j].grant.value.token))
  }

  /** Every catalog entry carries the plane's version; no pending grant was consumed. */
  predicate Kept(w: World, p: Plane) {
    && p.version >= 1
    && (forall k :: k in p.catalog ==> p.catalog[k].id == k && p.catalog[k].version == p.version)
    && (forall t :: t in p.grants ==> p.grants[t].token == t < w.issued)
    && (forall t, i :: t in p.grants && 0 <= i < |w.runs| && w.runs[i].grant.Some? ==> w.runs[i].grant.value.token != t)
  }

  predicate Sound(w: World, p: Plane) {
    Recorded(w) && Kept(w, p)
  }

  /** Everything executed is known to the plane. */
  predicate Informed(w: World, p: Plane) {
    forall i :: 0 <= i < |w.runs| ==> w.runs[i].command.id in p.seen
  }

  /** A run that a plane may add: of a command it had not seen, with a grant it held or issued since. */
  predicate Novel(r: Run, w: World, p: Plane, p': Plane, extra: set<nat>) {
    && r.command.id !in p.seen && r.command.id in p'.seen
    && (r.grant.Some? ==>
          r.grant.value.token in p.grants || r.grant.value.token in extra || r.grant.value.token >= w.issued)
  }

  /** The operation journals a preview of this command. */
  predicate Asks(op: Operation, id: Id) {
    (op.Requesting? || (op.Observing? && op.note.Preview?)) && op.command.id == id
  }

  /** Some answer calls back for a preview of this command. */
  predicate Asked(answers: seq<Answer>, id: Id) {
    exists i, j :: 0 <= i < |answers| && 0 <= j < |answers[i].calls| && Asks(answers[i].calls[j], id)
  }

  predicate Remaining(before: seq<Answer>, after: seq<Answer>) {
    |after| <= |before| && after == before[|before| - |after|..]
  }

  /** A preview is journaled exactly when it is noted as shown, which takes an operation that asks for it. */
  ghost predicate Tells(w: World, w': World, own: set<Id>) {
    && w.shown <= w'.shown && Remaining(w.answers, w'.answers)
    && (forall id :: Previewed(w'.events, id) <==> Previewed(w.events, id) || id in w'.shown[|w.shown|..])
    && (forall id :: id in w'.shown[|w.shown|..] ==> id in own || Asked(w.answers, id))
  }

  /** What an activity may use besides what the plane holds: grants taken out just before, and previews of its own. */
  datatype Extra = Extra(tokens: set<nat>, previews: set<Id>)

  const Nothing := Extra({}, {})

  /** What any activity of one plane leaves behind. */
  ghost predicate Acts(w: World, p: Plane, w': World, p': Plane, extra: Extra) {
    Moves(w, p, w', p', extra.tokens) && Tells(w, w', extra.previews)
  }

  predicate Moves(w: World, p: Plane, w': World, p': Plane, extra: set<nat>) {
    && w.events <= w'.events && w.runs <= w'.runs && w.issued <= w'.issued && w.guards <= w'.guards
    && p.seen <= p'.seen && p'.users == p.users && p.version <= p'.version
    && (p.users > 0 ==> p'.catalog == p.catalog && p'.version == p.version)
    && (forall i :: |w.runs| <= i < |w'.runs| ==> Novel(w'.runs[i], w, p, p', extra))
    && (forall t :: t in p'.grants ==> (t in p.grants && p'.grants[t] == p.grants[t]) || w.issued <= t < w'.issued)
    && (p'.version != p.version ==> forall t :: t in p'.grants ==> t >= w.issued)
  }

  lemma ActsReflexive(w: World, p: Plane, extra: Extra)
    ensures Acts(w, p, w, p, extra)
  {
  }

  lemma ActsTransitive(w: World, p: Plane, w1: World, p1: Plane, w2: World, p2: Plane, extra: Extra, more: Extra)
    requires Acts(w, p, w1, p1, extra) && Acts(w1, p1, w2, p2, more)
    requires forall t :: t in more.tokens ==> t in extra.tokens || t in p.grants || t >= w.issued
    requires forall id :: id in more.previews ==> id in extra.previews || Asked(w.answers, id)
    ensures Acts(w, p, w2, p2, extra)
  {
    hide Moves, Tells, Asked;
    MovesTransitive(w, p, w1, p1, w2, p2, extra.tokens, more.tokens);
    TellsTransitive(w, w1, w2, extra.previews, more.previews);
  }

  lemma MovesTransitive(w: World, p: Plane, w1: World, p1: Plane, w2: World, p2: Plane, extra: set<nat>, more: set<nat>)
    requires Moves(w, p, w1, p1, extra) && Moves(w1, p1, w2, p2, more)
    requires forall t :: t in more ==> t in extra || t in p.grants || t >= w.issued
    ensures Moves(w, p, w2, p2, extra)
  {
  }

  lemma TellsTransitive(w: World, w1: World, w2: World, own: set<Id>, more: set<Id>)
    requires Tells(w, w1, own) && Tells(w1, w2, more)
    requires forall id :: id in more ==> id in own || Asked(w.answers, id)
    ensures Tells(w, w2, own)
  {
    hide Previewed, Asked;
    assert w2.shown[|w.shown|..] == w1.shown[|w.shown|..] + w2.shown[|w1.shown|..];
    forall id | Asked(w1.answers, id)
      ensures Asked(w.answers, id)
    {
      AskedEarlier(w.answers, w1.answers, id);
    }
  }

  lemma AskedEarlier(before: seq<Answer>, after: seq<Answer>, id: Id)
    requires Remaining(before, after) && Asked(after, id)
    ensures Asked(before, id)
  {
    var i, j :| 0 <= i < |after| && 0 <= j < |after[i].calls| && Asks(after[i].calls[j], id);
    assert before[|before| - |after| + i] == after[i];
  }

  const Silence := Answer(false, [], 0, "", None, false)

  /** The next answer; nothing comes after the last one. */
  function First(w: World): Answer {
    if w.answers == [] then Silence else w.answers[0]
  }

  /** The answer of the executor in a run that began when these answers were to come. */
  function Heard(r: Run, w: World): Answer {
    if 0 < r.left <= |w.answers| then w.answers[|w.answers| - r.left] else Silence
  }

  /** What an executor's answer comes to: its own status, or uncertainty if it raised or its answer is no outcome. */
  function Told(a: Answer): Result {
    match (a.ok, a.status)
    case (true, Some(Success)) => Result(Success, None)
    case (true, Some(Failure)) => Result(Failure, None)
    case (true, Some(Canceled)) => Result(Canceled, None)
    case (true, Some(Uncertain)) => Result(Uncertain, None)
    case _ => Result(Uncertain, Some(ExecutorUncertain))
  }

  /** Neither a denial nor a lack of the journal. */
  predicate Outright(result: Result) {
    result.Result? && !result.status.Denied? && result.error != Some(JournalUnavailable)
  }

  lemma HeardNow(w0: World, p0: Plane, w: World, p: Plane, r: Run, extra: Extra)
    requires Acts(w0, p0, w, p, extra) && r.left == |w.answers|
    ensures Heard(r, w0) == First(w) && r.left <= |w0.answers|
  {
  }

  lemma HeardEarlier(w0: World, p0: Plane, w: World, p: Plane, r: Run, extra: Extra)
    requires Acts(w0, p0, w, p, extra) && r.left <= |w.answers|
    ensures Heard(r, w0) == Heard(r, w) && r.left <= |w0.answers|
  {
    hide Asked, Moves, Previewed;
  }

  /** Growth of the journal and the traces disturbs nothing already recorded. */
  lemma GrowKeeps(w: World, p: Plane, w': World, extra: Extra)
    requires Sound(w, p) && w.events <= w'.events && w'.runs == w.runs && w.issued <= w'.issued && w.guards <= w'.guards
    requires Tells(w, w', extra.previews)
    ensures Sound(w', p) && Acts(w, p, w', p, extra)
  {
    hide Tells;
    forall i | 0 <= i < |w.runs| ensures Intended(w'.events, w.runs[i].command.id) && Sanctioned(w.runs[i], w') {
      SanctionStays(w.runs[i], w, w');
    }
    hide Intended, Sanctioned, Previewed;
  }

  lemma SanctionStays(r: Run, w: World, w': World)
    requires Sanctioned(r, w) && w.events <= w'.events && w.issued <= w'.issued && w.guards <= w'.guards
    ensures Sanctioned(r, w') && Intended(w'.events, r.command.id)
  {
    assert w'.events[..r.read] == w.events[..r.read] && w'.events[..r.done] == w.events[..r.done];
    if r.guarded {
      assert w'.events[..w.guards[r.last].at] == w.events[..w.guards[r.last].at];
    }
    var k :| 0 <= k < r.done && w.events[..r.done][k].note.Started? && w.events[..r.done][k].command == r.command.id;
    assert w'.events[k] == w.events[k];
  }

  lemma IntentStays(events: seq<Record>, events': seq<Record>, id: Id)
    requires events <= events'
    ensures Intended(events, id) ==> Intended(events', id)
  {
  }

  /** An answer was taken. */
  lemma AskKeeps(w: World, p: Plane, w': World)
    requires Sound(w, p) && w' == w.(answers := w'.answers) && Remaining(w.answers, w'.answers)
    ensures Sound(w', p) && Acts(w, p, w', p, Nothing)
  {
    GrowKeeps(w, p, w', Nothing);
  }

  /** One more record, and the note that a preview was shown if it is one. */
  function Appended(w: World, r: Record): World {
    w.(events := w.events + [r], shown := if r.note.Preview? then w.shown + [r.command] else w.shown)
  }

  lemma AppendKeeps(w: World, p: Plane, r: Record)
    requires Sound(w, p)
    ensures var extra := Extra({}, if r.note.Preview? then {r.command} else {});
            Sound(Appended(w, r), p) && Acts(w, p, Appended(w, r), p, extra)
  {
    hide Asked, Sound, Moves;
    var w' := Appended(w, r);
    forall id
      ensures Previewed(w'.events, id) <==> Previewed(w.events, id) || id in w'.shown[|w.shown|..]
    {
      PreviewedMore(w.events, r, id);
    }
    GrowKeeps(w, p, w', Extra({}, if r.note.Preview? then {r.command} else {}));
  }

  lemma StoreKeeps(w: World, p: Plane, w': World, r: Record)
    requires Sound(w, p) && Remaining(w.answers, w'.answers)
    requires w' == w.(answers := w'.answers) || w' == Appended(w.(answers := w'.answers), r)
    ensures Sound(w', p) && Acts(w, p, w', p, Shown(r.note, r.command)) && |w'.answers| <= |w.answers|
    ensures r in w'.events ==> Journaled(w'.events, r.note, r.command)
  {
    hide Sound, Acts, Appended;
    var (w1, x) := (w.(answers := w'.answers), Shown(r.note, r.command));
    AskKeeps(w, p, w1);
    Widen(w, p, w1, p, x);
    AppendKeeps(w1, p, r);
    ActsTransitive(w, p, w1, p, Appended(w1, r), p, x, x);
  }

  lemma PreviewedMore(events: seq<Record>, r: Record, id: Id)
    ensures Previewed(events + [r], id) <==> Previewed(events, id) || (r.note.Preview? && r.command == id)
  {
    if i :| 0 <= i < |events| && events[i].note.Preview? && events[i].command == id {
      assert (events + [r])[i] == events[i];
    }
    assert (events + [r])[|events|] == r;
  }

  /** Seeing more commands, and dropping grants, disturbs nothing. */
  lemma LessKeeps(w: World, p: Plane, seen: set<Id>, dropped: set<nat>)
    requires Sound(w, p)
    ensures var p' := p.(seen := p.seen + seen, grants := p.grants - dropped);
            Sound(w, p') && Acts(w, p, w, p', Nothing)
  {
  }

  /** The one step that executes. */
  lemma ExecuteKeeps(w0: World, p0: Plane, w: World, p: Plane, r: Run)
    requires Sound(w, p) && Acts(w0, p0, w, p, Held(r.grant))
    requires r.command.id !in p0.seen && r.command.id in p.seen
    requires Intended(w.events, r.command.id) && Sanctioned(r, w)
    requires forall i :: 0 <= i < |w.runs| ==> w.runs[i].command.id != r.command.id
    requires r.grant.Some? ==>
               && r.grant.value.token !in p.grants
               && forall i :: 0 <= i < |w.runs| && w.runs[i].grant.Some? ==> w.runs[i].grant.value.token != r.grant.value.token
    ensures var w' := w.(runs := w.runs + [r]);
            Sound(w', p) && Acts(w0, p0, w', p, Held(r.grant))
  {
    var (w', x) := (w.(runs := w.runs + [r]), Held(r.grant).tokens);
    forall i | |w0.runs| <= i < |w'.runs| ensures Novel(w'.runs[i], w0, p0, p, x) {
      if i < |w.runs| {
        assert w'.runs[i] == w.runs[i] && Novel(w.runs[i], w0, p0, p, x);
      }
    }
    forall i | 0 <= i < |w'.runs| ensures Intended(w'.events, w'.runs[i].command.id) && Sanctioned(w'.runs[i], w') {
      if i < |w.runs| {
        assert Intended(w.events, w.runs[i].command.id) && Sanctioned(w.runs[i], w);
      }
    }
    hide Intended, Sanctioned, Novel, Previewed, Asked;
  }

  /** Counting catalog users is invisible outside the use. */
  lemma UseKeeps(w: World, p: Plane, w': World, p': Plane, extra: Extra)
    requires Acts(w, p.(users := p.users + 1), w', p', extra) && Sound(w', p')
    ensures Acts(w, p, w', p'.(users := p.users), extra) && Sound(w', p'.(users := p.users))
  {
  }

  lemma UserKeeps(w: World, p: Plane)
    requires Sound(w, p)
    ensures Sound(w, p.(users := p.users + 1))
  {
  }

  lemma Current(w: World, p: Plane, policy: Policy, profile: Profile, c: Command, confirmed: bool)
    requires Sound(w, p) && Refusal(p, policy, profile, c, confirmed).None?
    ensures c.version == p.version
  {
  }

  /** The grant behind a confirmed dispatch was taken out and never used. */
  predicate Taken(w: World, p: Plane, grant: Option<Grant>) {
    grant.Some? ==>
      && grant.value.token < w.issued && grant.value.token !in p.grants
      && forall i :: 0 <= i < |w.runs| && w.runs[i].grant.Some? ==> w.runs[i].grant.value.token != grant.value.token
  }

  /** The command is this dispatch's to execute: seen now, never executed. */
  predicate Reserved(w: World, p: Plane, id: Id) {
    id in p.seen && forall i :: 0 <= i < |w.runs| ==> w.runs[i].command.id != id
  }

  lemma Stays(w: World, p: Plane, w': World, p': Plane, grant: Option<Grant>, id: Id)
    requires Acts(w, p, w', p', Nothing)
    ensures Taken(w, p, grant) ==> Taken(w', p', grant)
    ensures Reserved(w, p, id) ==> Reserved(w', p', id)
  {
  }

  function Held(grant: Option<Grant>): Extra {
    Extra(if grant.Some? then {grant.value.token} else {}, {})
  }

  lemma Widen(w: World, p: Plane, w': World, p': Plane, extra: Extra)
    requires Acts(w, p, w', p', Nothing)
    ensures Acts(w, p, w', p', extra)
  {
  }

  predicate Journaled(events: seq<Record>, note: Note, id: Id) {
    exists i :: 0 <= i < |events| && events[i].note == note && events[i].command == id
  }

  /** A list of capabilities that makes a catalog: not too many, none repeated, and of one revision. */
  predicate Coherent(entries: seq<Capability>) {
    && |entries| <= 256
    && (forall i :: 0 <= i < |entries| ==> entries[i].version >= 1 && entries[i].version == entries[0].version)
    && Distinct(entries)
  }

  function Catalog(entries: seq<Capability>): (catalog: map<Id, Capability>)
    ensures forall k :: k in catalog ==> catalog[k] in entries && catalog[k].id == k
  {
    if entries == [] then map[] else Catalog(entries[..|entries| - 1])[entries[|entries| - 1].id := entries[|entries| - 1]]
  }

  predicate Distinct(entries: seq<Capability>) {
    forall i, j :: 0 <= i < j < |entries| ==> entries[i].id != entries[j].id
  }

  lemma DistinctMore(entries: seq<Capability>, k: Capability)
    ensures Distinct(entries + [k]) <==> Distinct(entries) && forall e :: e in entries ==> e.id != k.id
  {
    var all := entries + [k];
    if Distinct(all) {
      forall i, j | 0 <= i < j < |entries|
        ensures entries[i].id != entries[j].id
      {
        assert all[i].id != all[j].id;
      }
      forall e | e in entries
        ensures e.id != k.id
      {
        var i :| 0 <= i < |entries| && entries[i] == e;
        assert all[i].id != all[|entries|].id;
      }
    }
  }

  lemma {:induction false} CatalogHolds(entries: seq<Capability>, e: Capability)
    requires e in entries
    ensures e.id in Catalog(entries)
  {
    var (init, last) := (entries[..|entries| - 1], entries[|entries| - 1]);
    assert entries == init + [last];
    if e in init {
      CatalogHolds(init, e);
    }
  }

  lemma {:induction false} CatalogListed(entries: seq<Capability>)
    ensures |Catalog(entries)| <= |entries|
    ensures |Catalog(entries)| == |entries| <==> Distinct(entries)
  {
    if entries != [] {
      var (init, last) := (entries[..|entries| - 1], entries[|entries| - 1]);
      hide Catalog, Distinct;
      CatalogListed(init);
      assert entries == init + [last];
      DistinctMore(init, last);
      CatalogMore(init, last);
      forall e | e in init
        ensures e.id in Catalog(init)
      {
        CatalogHolds(init, e);
      }
    }
  }

  lemma CatalogMore(entries: seq<Capability>, k: Capability)
    ensures Catalog(entries + [k]) == Catalog(entries)[k.id := k]
    ensures |Catalog(entries + [k])| == |Catalog(entries)| + if k.id in Catalog(entries) then 0 else 1
  {
    var (m, m') := (Catalog(entries), Catalog(entries + [k]));
    assert (entries + [k])[..|entries|] == entries;
    assert m'.Keys == m.Keys + {k.id};
    assert |m'.Keys| == |m.Keys| + if k.id in m then 0 else 1;
  }

  /** Every entry of a catalog without repetition is found under its identifier. */
  lemma {:induction false} CatalogFinds(entries: seq<Capability>, i: nat)
    requires i < |entries| && Distinct(entries)
    ensures entries[i].id in Catalog(entries) && Catalog(entries)[entries[i].id] == entries[i]
  {
    var (init, last) := (entries[..|entries| - 1], entries[|entries| - 1]);
    assert entries == init + [last];
    DistinctMore(init, last);
    if i < |init| {
      CatalogFinds(init, i);
    }
  }

  /** A snapshot of a catalog: the entries by identifier, unless one is repeated or the revisions differ. */
  predicate Snapshots(entries: seq<Capability>) {
    && |entries| <= CATALOG_LIMIT && |Catalog(entries)| == |entries|
    && |Revisions(entries)| <= 1 && forall k :: k in entries ==> k.version >= 1
  }

  function Revisions(entries: seq<Capability>): set<int> {
    set k | k in entries :: k.version
  }

  lemma OneRevision(entries: seq<Capability>)
    ensures |Revisions(entries)| <= 1 <==> forall i :: 0 <= i < |entries| ==> entries[i].version == entries[0].version
  {
    var versions := Revisions(entries);
    if entries != [] {
      var v := entries[0].version;
      assert v in versions;
      assert |versions| == |versions - {v}| + 1;
      if versions != {v} {
        var u :| u in versions - {v};
        var i :| 0 <= i < |entries| && entries[i].version == u;
      }
      forall i | 0 <= i < |entries|
        ensures entries[i].version in versions
      {
      }
    }
  }

  lemma SnapshotsCoherent(entries: seq<Capability>)
    ensures Snapshots(entries) <==> Coherent(entries)
  {
    hide Catalog, Revisions;
    CatalogListed(entries);
    OneRevision(entries);
  }

  lemma InstallKeeps(w: World, p: Plane, entries: seq<Capability>, version: int)
    requires Sound(w, p) && p.users == 0 && Coherent(entries) && p.version < version
    requires entries == [] || entries[0].version == version
    ensures var p' := p.(catalog := Catalog(entries), version := version, grants := map[]);
            Sound(w, p') && Acts(w, p, w, p', Nothing)
  {
  }

  /** What a command's dispatch found: no journal, no clock, a known command, or the events it was unknown to. */
  datatype View = Unreadable | Failed | Familiar | Fresh(events: seq<Record>)

  /** What the review of a command came to. */
  datatype Review = Blind | Crashed | Reviewed(duplicate: bool, denial: Option<Denial>)

  lemma Learn(w: World, p: Plane)
    requires Sound(w, p)
    ensures var p' := p.(seen := p.seen + Known(w.events));
            Sound(w, p') && Acts(w, p, w, p', Nothing) && Informed(w, p')
  {
  }

  /** From the journal read to the duplicate check only this plane acted. */
  lemma Reserve(w0: World, p0: Plane, p1: Plane, w: World, p: Plane, id: Id)
    requires Informed(w0, p1) && Acts(w0, p1, w, p, Nothing) && Acts(w0, p0, w, p, Nothing) && Sound(w, p) && id !in p.seen
    ensures var p' := p.(seen := p.seen + {id});
            Sound(w, p') && Acts(w0, p0, w, p', Nothing) && Acts(w, p, w, p', Nothing) && Reserved(w, p', id) && id !in p0.seen
  {
  }

  lemma ReviewEnd(
    w0: World, p0: Plane, w: World, p: Plane, reading: nat, policy: Policy, profile: Profile, c: Command, confirmed: bool)
    requires Sound(w, p) && Acts(w0, p0, w, p, Nothing) && reading == |w0.events| && p0.users > 0
    ensures reading <= |w.events| && w.events[..reading] == w0.events
    ensures Refusal(p, policy, profile, c, confirmed).None? ==> c.version == p.version
    ensures Refusal(p, policy, profile, c, confirmed) == Refusal(p0, policy, profile, c, confirmed) != Some(Duplicate)
  {
    hide Tells;
  }

  /** How far the effect of a reviewed command got. */
  datatype Outcome = Unwritten | Stopped(denial: Denial) | Executed(result: Result)

  /** How far a dispatch got: no clock, an effect, or a cancellation (no code) or denial, which is receipted if it can be. */
  datatype Course = Halted | Effected(result: Result) | Declined(denial: Option<Denial>, receipted: bool)

  function Unaffected(denial: Option<Denial>): Result {
    Result(if denial.Some? then Denied else Canceled, denial)
  }

  /** A grant, if there is one, is for this command, in time and under its key. */
  predicate Warranted(command: Command, grant: Option<Grant>, at: int, key: Id) {
    grant.Some? ==> grant.value.command == command && at < grant.value.expires && key == grant.value.key
  }

  lemma PerformStep(w0: World, p0: Plane, w: World, p: Plane, w': World, p': Plane, grant: Option<Grant>, id: Id)
    requires Acts(w0, p0, w, p, Held(grant)) && Acts(w, p, w', p', Nothing) && p.users > 0
    requires Reserved(w, p, id) && Taken(w, p, grant)
    ensures Acts(w0, p0, w', p', Held(grant)) && Reserved(w', p', id) && Taken(w', p', grant)
    ensures p'.version == p.version && p'.users == p.users && w.events <= w'.events
  {
  }

  lemma PerformEnd(w0: World, p0: Plane, w1: World, w: World, p: Plane, r: Run)
    requires Sound(w, p) && Acts(w0, p0, w, p, Held(r.grant)) && r.command.id !in p0.seen
    requires Reserved(w, p, r.command.id) && Taken(w, p, r.grant) && Warranted(r.command, r.grant, r.at, r.key)
    requires r.command.version == r.version && r.read <= |w1.events| && w1.events <= w.events && r.done == |w.events|
    requires r.grant.None? ==> !Previewed(w1.events[..r.read], r.command.id)
    requires Intended(w.events, r.command.id) && (r.guarded ==> Watched(r, w))
    ensures var w' := w.(runs := w.runs + [r]);
            Sound(w', p) && Acts(w0, p0, w', p, Held(r.grant)) && r in w'.runs
  {
    assert w.events[..r.read] == w1.events[..r.read] && w.events[..r.done] == w.events;
    ExecuteKeeps(w0, p0, w, p, r);
  }

  lemma PerformAfter(w0: World, p0: Plane, w: World, p: Plane, w': World, p': Plane, r: Run)
    requires Acts(w0, p0, w, p, Held(r.grant)) && Acts(w, p, w', p', Nothing) && r in w.runs
    ensures Acts(w0, p0, w', p', Held(r.grant)) && r in w'.runs && p'.users == p.users
  {
  }

  /** A result and the effect behind it: a denial had none, a claimed outcome had one and is journaled,
      an effect whose receipt could not be written is only uncertain, and the status claimed of an effect is
      the one its executor answered, if it is not uncertain. */
  predicate Receipt(command: Command, result: Result, ran: Option<Run>, w0: World, w: World) {
    && (ran.Some? ==> ran.value.command == command && ran.value in w.runs && ran.value.left <= |w0.answers|)
    && (result.Result? ==>
          && (ran.Some? ==> result.status.Uncertain? || result == Told(Heard(ran.value, w0)))
          && (result.status.Denied? ==> ran.None?)
          && (result.status.Success? || result.status.Failure? || result.status.Uncertain? ==> ran.Some?)
          && (result.error != Some(JournalUnavailable) ==> Journaled(w.events, Finished(result.status), command.id))
          && (result.error == Some(JournalUnavailable) && ran.Some? ==> result.status.Uncertain?))
  }

  lemma ReceiptEarlier(
    w0: World, p0: Plane, w1: World, p1: Plane, w: World, command: Command, result: Result, ran: Option<Run>, extra: Extra)
    requires Acts(w0, p0, w1, p1, extra) && Receipt(command, result, ran, w1, w)
    ensures Receipt(command, result, ran, w0, w)
  {
    hide Journaled, Acts;
    if ran.Some? {
      HeardEarlier(w0, p0, w1, p1, ran.value, extra);
    }
  }

  lemma Reviewing(
    w0: World, p0: Plane, w: World, p: Plane, grant: Option<Grant>, policy: Policy, profile: Profile, c: Command)
    requires Acts(w0, p0, w, p, Nothing) && Taken(w0, p0, grant) && p0.users > 0
    ensures Taken(w, p, grant) && Acts(w0, p0, w, p, Held(grant)) && p.users == p0.users && p.version == p0.version
    ensures Refusal(p, policy, profile, c, grant.Some?) == Refusal(p0, policy, profile, c, grant.Some?)
  {
  }

  lemma Replied(w0: World, p0: Plane, w: World, p: Plane, w': World, p': Plane, grant: Option<Grant>)
    requires Acts(w0, p0, w, p, Held(grant)) && Acts(w, p, w', p', Nothing)
    ensures Acts(w0, p0, w', p', Held(grant)) && p'.users == p0.users
    ensures forall r :: r in w.runs ==> r in w'.runs
  {
  }

  lemma RefusalUse(p: Plane, policy: Policy, profile: Profile, c: Command, confirmed: bool)
    ensures Refusal(p.(users := p.users + 1), policy, profile, c, confirmed) == Refusal(p, policy, profile, c, confirmed)
  {
  }

  lemma SeenStays(w: World, p: Plane, w': World, p': Plane)
    requires Acts(w, p, w', p', Nothing)
    ensures p.seen <= p'.seen
  {
  }

  lemma TakeKeeps(w: World, p: Plane, token: nat)
    requires Sound(w, p) && token in p.grants
    ensures var p' := p.(users := p.users + 1, grants := p.grants - {token});
            Sound(w, p') && Taken(w, p', Some(p.grants[token])) && p.grants[token].token == token < w.issued
  {
  }

  lemma TakeEnds(w: World, p: Plane, p1: Plane, w': World, p': Plane, token: nat)
    requires token in p.grants && p1 == p.(users := p.users + 1, grants := p.grants - {token}) && token < w.issued
    requires Acts(w, p1, w', p', Extra({token}, {})) && Sound(w', p')
    ensures p'.users == p.users + 1
    ensures Acts(w, p, w', p'.(users := p.users), Nothing) && Sound(w', p'.(users := p.users)) && token !in p'.grants
  {
  }

  lemma Redeeming(w0: World, p0: Plane, w: World, p: Plane, grant: Grant)
    requires Acts(w0, p0, w, p, Nothing) && Taken(w0, p0, Some(grant)) && p0.users > 0
    ensures Taken(w, p, Some(grant)) && Taken(w, p, None)
    ensures Acts(w0, p0, w, p, Extra({grant.token}, {})) && p.users == p0.users && p.version == p0.version
  {
  }

  lemma Redeemed(w0: World, p0: Plane, w: World, p: Plane, w': World, p': Plane, token: nat)
    requires Acts(w0, p0, w, p, Extra({token}, {})) && (Acts(w, p, w', p', Nothing) || Acts(w, p, w', p', Extra({token}, {})))
    ensures Acts(w0, p0, w', p', Extra({token}, {})) && p'.users == p.users
  {
  }

  lemma TakenOffer(w: World, p: Plane, w': World, p': Plane, extra: Extra, grant: Option<Grant>)
    requires Acts(w, p, w', p', extra) && extra.tokens == {} && Taken(w, p, grant)
    ensures Taken(w', p', grant)
  {
    hide Tells;
  }

  lemma Unissued(w: World, p: Plane, g: Grant)
    requires Sound(w, p) && g.token == w.issued
    ensures Taken(w.(issued := w.issued + 1), p, Some(g))
  {
  }

  lemma Offered(w0: World, p0: Plane, w1: World, w2: World, p2: Plane, w: World, p: Plane, g: Grant, extra: Extra)
    requires Sound(w, p) && Acts(w0, p0, w, p, extra) && Taken(w, p, Some(g)) && g.token == w1.issued && w0.issued <= w1.issued
    ensures var p' := p.(grants := p.grants[g.token := g]);
            Sound(w, p') && Acts(w0, p0, w, p', extra)
  {
  }

  /** The previews that an operation, or a note, journals by itself. */
  function Own(op: Operation): Extra {
    Extra({}, if op.Requesting? || (op.Observing? && op.note.Preview?) then {op.command.id} else {})
  }

  function Shown(note: Note, id: Id): Extra {
    Extra({}, if note.Preview? then {id} else {})
  }

  lemma CalledFor(w: World, a: Answer, i: nat)
    requires w.answers != [] && a == w.answers[0] && i < |a.calls|
    ensures forall id :: id in Own(a.calls[i]).previews ==> Asked(w.answers, id)
  {
    forall id | id in Own(a.calls[i]).previews
      ensures Asked(w.answers, id)
    {
      assert Asks(w.answers[0].calls[i], id);
    }
  }

  lemma ActsShape(w: World, p: Plane, w': World, p': Plane, extra: Extra)
    requires Acts(w, p, w', p', extra)
    ensures p'.users == p.users && w.issued <= w'.issued && w.events <= w'.events && w.guards <= w'.guards
    ensures |w'.answers| <= |w.answers|
  {
  }

  lemma NoteKeeps(w: World, p: Plane, w': World)
    requires Sound(w, p) && w' == w.(guards := w'.guards, issued := w'.issued)
    requires w.guards <= w'.guards && w.issued <= w'.issued
    ensures Sound(w', p) && Acts(w, p, w', p, Nothing)
  {
    GrowKeeps(w, p, w', Nothing);
  }

  /** A yes of the guard about this command, not before the journal was read. */
  predicate Passed(w: World, k: nat, id: Id, reading: nat) {
    k < |w.guards| && w.guards[k].yes && w.guards[k].command == id && reading <= w.guards[k].at
  }

  /** From a world, the intent was journaled, and the guard has just said yes. */
  predicate AfterIntent(w1: World, w2: World, w: World, id: Id) {
    && w1.guards <= w2.guards <= w.guards && |w2.guards| < |w.guards|
    && w.guards[|w.guards| - 1] == Guard(id, |w.events|, true)
  }

  lemma GuardedTwice(w1: World, w2: World, w: World, r: Run)
    requires Passed(w1, r.first, r.command.id, r.read) && AfterIntent(w1, w2, w, r.command.id)
    requires r.last == |w.guards| - 1
    requires r.done == |w.events| && Intended(w.events, r.command.id)
    ensures Watched(r, w)
  {
    assert w.events[..|w.events|] == w.events;
    assert w.guards[r.first] == w1.guards[r.first];
  }

  /** An unconfirmed effect follows a preview exactly when one was shown since its dispatch read the journal, and
      whatever was shown since was asked for by a callback. */
  predicate Followed(r: Run, w0: World, w: World) {
    && r.done <= |w.events| && |w0.shown| <= r.shown <= |w.shown|
    && (r.grant.None? ==>
          (Previewed(w.events[..r.done], r.command.id) <==> r.command.id in w.shown[|w0.shown|..r.shown]))
    && (forall id :: id in w.shown[|w0.shown|..r.shown] ==> Asked(w0.answers, id))
  }

  lemma FollowedNow(r: Run, w0: World, p0: Plane, w: World, p: Plane, extra: Extra)
    requires Acts(w0, p0, w, p, extra) && extra.previews == {} && r.done == |w.events| && r.shown == |w.shown|
    requires r.grant.None? ==> !Previewed(w0.events, r.command.id)
    ensures Followed(r, w0, w.(runs := w.runs + [r]))
  {
    hide Previewed, Asked, Moves;
    assert w.events[..r.done] == w.events && w.shown[|w0.shown|..r.shown] == w.shown[|w0.shown|..];
  }

  lemma FollowedBounds(r: Run, w0: World, w: World)
    requires Followed(r, w0, w)
    ensures r.done <= |w.events|
  {
  }

  lemma FollowedStill(r: Run, w0: World, w: World, p: Plane, w': World, p': Plane)
    requires Followed(r, w0, w) && Acts(w, p, w', p', Nothing)
    ensures Followed(r, w0, w')
  {
    hide Previewed, Asked;
    assert w'.events[..r.done] == w.events[..r.done];
    assert w'.shown[|w0.shown|..r.shown] == w.shown[|w0.shown|..r.shown];
  }

  /** What is known of an effect of one call on `w0` and `p0`. */
  predicate Admitted(
    r: Run, w0: World, p0: Plane, w: World, command: Command, canceled: bool, grant: Option<Grant>, guarded: bool)
  {
    && !canceled && command.id !in p0.seen && r in w.runs && r.command == command && r.grant == grant
    && r.version == p0.version && r.read == |w0.events| && r.guarded == guarded && Followed(r, w0, w)
    && (grant.None? ==> !Previewed(w0.events, command.id))
  }

  lemma AdmittedStill(
    r: Run, w0: World, p0: Plane, w: World, p: Plane, w': World, p': Plane, command: Command, canceled: bool,
    grant: Option<Grant>, guarded: bool)
    requires Admitted(r, w0, p0, w, command, canceled, grant, guarded) && Acts(w, p, w', p', Nothing)
    ensures Admitted(r, w0, p0, w', command, canceled, grant, guarded)
    ensures r.done <= |w.events| <= |w'.events| && w'.events[..r.done] == w.events[..r.done]
  {
    hide Previewed, Asked;
    FollowedStill(r, w0, w, p, w', p');
  }

  lemma PreviewStays(events: seq<Record>, events': seq<Record>, done: nat, id: Id)
    requires events <= events' && |events| <= done <= |events'|
    ensures Previewed(events, id) ==> Previewed(events'[..done], id)
  {
    if i :| 0 <= i < |events| && events[i].note.Preview? && events[i].command == id {
      assert events'[..done][i] == events[i];
    }
  }

  // Scripts on which everything goes well.

  /** The next `n` answers come, call nothing back, and name records that the journal does not hold. */
  predicate Smooth(w: World, n: nat) {
    && !w.closed && n <= |w.answers|
    && (forall i :: 0 <= i < n ==> w.answers[i].ok && w.answers[i].calls == [])
    && (forall i, k :: 0 <= i < n && 0 <= k < |w.events| ==> w.events[k].event != w.answers[i].name)
    && (forall i, j :: 0 <= i < j < n ==> w.answers[i].name != w.answers[j].name)
  }

  function Next(w: World): World {
    if w.answers == [] then w else w.(answers := w.answers[1..])
  }

  /** An execution event reads the clock before its identifier, an observation after it. */
  function Made(first: Answer, second: Answer, id: Id, note: Note): Record {
    if note.Started? || note.Finished? then Record(second.name, id, note, first.number)
    else Record(first.name, id, note, second.number)
  }

  /** A record made of the next three answers: the clock's and the identifier's, and then the journal's. */
  function Written(w: World, id: Id, note: Note): World {
    if |w.answers| < 3 then w
    else Appended(w.(answers := w.answers[3..]), Made(w.answers[0], w.answers[1], id, note))
  }

  /** The next answer comes, and the journal does not know the record's name. */
  predicate Storable(w: World, record: Record) {
    && !w.closed && w.answers != [] && w.answers[0].ok
    && forall r :: r in w.events ==> r.event != record.event
  }

  /** What the three steps of a write find and leave. */
  lemma SmoothSteps(w: World, id: Id, note: Note)
    ensures Smooth(w, 3) ==>
              |w.answers| >= 3 &&
              var r := Made(w.answers[0], w.answers[1], id, note);
              && w.answers != [] && w.answers[0].ok && w.answers[0].calls == []
              && Next(w).answers != [] && Next(w).answers[0] == w.answers[1] && w.answers[1].ok && w.answers[1].calls == []
              && Storable(Next(Next(w)), r) && Written(w, id, note) == Appended(Next(Next(Next(w))), r)
  {
  }

  lemma WrittenMeans(w: World, id: Id, note: Note)
    ensures Smooth(w, 3) ==>
              |w.answers| >= 3 && Written(w, id, note).events == w.events + [Made(w.answers[0], w.answers[1], id, note)]
  {
  }

  lemma SmoothNext(w: World, n: nat)
    requires Smooth(w, n) && n > 0
    ensures w.answers != [] && w.answers[0].ok && w.answers[0].calls == [] && Smooth(Next(w), n - 1)
  {
  }

  lemma SmoothStep(w: World, n: nat)
    ensures Smooth(w, n) && n > 0 ==>
              && !w.closed && w.answers != [] && First(w) == w.answers[0] && w.answers[0].ok && w.answers[0].calls == []
              && Smooth(Next(w), n - 1) && Next(w).answers == w.answers[1..]
    ensures Smooth(w, n) ==> forall m :: 0 <= m <= n ==> Smooth(w, m)
  {
  }

  lemma SmoothFewer(w: World, n: nat, m: nat)
    ensures Smooth(w, n) && m <= n ==> Smooth(w, m)
  {
  }

  lemma SmoothLike(w: World, w': World, n: nat)
    ensures Smooth(w, n) && w'.answers == w.answers && w'.events == w.events && w'.closed == w.closed ==> Smooth(w', n)
  {
  }

  /** The script after the journal and the clock were read. */
  lemma AmpleSteps(w: World, guarded: bool)
    ensures Ample(w, guarded) ==>
              var w' := Next(Next(w));
              && |w.answers| >= (if guarded then 12 else 10) && Smooth(w, 2)
              && w'.answers == w.answers[2..] && First(w') == w.answers[2] && w'.events == w.events
              && Smooth(w', if guarded then 9 else 8)
              && First(w').ok && First(w').calls == []
              && (guarded ==> Smooth(Next(w'), 9) && Next(w').answers == w.answers[3..] && Next(w').events == w.events)
  {
    hide Smooth;
    var n := if guarded then 12 else 10;
    SmoothStep(w, n);
    SmoothStep(Next(w), n - 1);
    SmoothStep(Next(Next(w)), n - 2);
  }

  /** The script after the intent was journaled. */
  lemma PerformSteps(w: World, id: Id, guarded: bool)
    ensures Smooth(w, if guarded then 9 else 8) ==>
              var w' := Written(w, id, Started);
              && |w.answers| >= (if guarded then 9 else 8) && Smooth(w, 3)
              && w'.answers == w.answers[3..] && First(w') == w.answers[3] && First(w').ok && First(w').calls == []
              && Smooth(w', if guarded then 6 else 5)
              && (guarded ==> Smooth(Next(w'), 5) && First(Next(w')) == w.answers[4])
  {
    hide Smooth, Written;
    var n := if guarded then 9 else 8;
    SmoothWrote(w, id, Started, n);
    SmoothStep(Written(w, id, Started), n - 3);
    SmoothStep(w, n);
  }

  lemma RunAdded(w: World, w': World)
    requires w' == w.(runs := w'.runs)
    ensures First(w') == First(w) && (Smooth(w, 5) ==> Smooth(w', 2) && Smooth(Next(Next(w')), 3))
  {
    hide Smooth;
    SmoothLike(w, w', 5);
    ExecuteSteps(w');
  }

  /** The script while the executor and the result are awaited. */
  lemma ExecuteSteps(w: World)
    ensures Smooth(w, 5) ==>
              && w.answers != [] && Smooth(w, 4) && Smooth(w, 2) && Smooth(Next(Next(w)), 3)
  {
    hide Smooth;
    SmoothStep(w, 5);
    SmoothStep(Next(w), 4);
  }

  lemma SmoothWrote(w: World, id: Id, note: Note, n: nat)
    ensures Smooth(w, n) && n >= 3 ==>
              Smooth(w, 3) && Smooth(Written(w, id, note), n - 3) && Written(w, id, note).answers == w.answers[3..]
  {
  }

  /** The command is known to have been dispatched before. */
  predicate Repeated(w: World, p: Plane, c: Command) {
    c.id in p.seen || exists r :: r in w.events && (r.note.Started? || r.note.Finished?) && r.command == c.id
  }

  /** What speaks against a command before its intent is journaled, on a smooth script. */
  function Objection(w: World, p: Plane, policy: Policy, profile: Profile, c: Command, confirmed: bool, guarded: bool)
    : Option<Denial>
    requires |w.answers| >= 3
  {
    if Repeated(w, p, c) then Some(Duplicate)
    else if !confirmed && Previewed(w.events, c.id) then Some(ConfirmationRequired)
    else if guarded && !w.answers[2].yes then Some(ContextStale)
    else Refusal(p, policy, profile, c, confirmed)
  }

  /** Enough answers for a dispatch: the journal and the clock, the intent, the executor, the result and its record. */
  predicate Ample(w: World, guarded: bool) {
    Smooth(w, if guarded then 12 else 10)
  }

  /** What a dispatch on such a script comes to. */
  function Due(w: World, p: Plane, policy: Policy, profile: Profile, c: Command, canceled: bool, confirmed: bool, guarded: bool)
    : Result
    requires |w.answers| >= if guarded then 12 else 10
  {
    var objection := Objection(w, p, policy, profile, c, confirmed, guarded);
    if objection == Some(Duplicate) then Result(Denied, objection)
    else if canceled then Result(Canceled, None)
    else if objection.Some? then Result(Denied, objection)
    else if guarded && !w.answers[6].yes then Result(Denied, Some(ContextStale))
    else Told(w.answers[if guarded then 7 else 5])
  }

  /** The world in which a confirmation in order is dispatched. */
  function Recalled(w: World, id: Id, guarded: bool): World {
    var w1 := Next(w);
    var w2 := Next(w1);
    Written(if guarded then w2.(guards := w2.guards + [Guard(id, |w2.events|, true)]) else w1, id, Confirmed)
  }

  predicate Plenty(w: World, guarded: bool) {
    Smooth(w, if guarded then 17 else 14)
  }

  /** What speaks against a confirmation before it is dispatched. */
  function Defect(w: World, grant: Grant, listed: bool, key: Id, guarded: bool): Option<Denial>
    requires |w.answers| >= 2
  {
    if !listed then Some(ConfirmationInvalid)
    else if key != grant.key then Some(ContextStale)
    else if w.answers[0].number >= grant.expires then Some(ConfirmationExpired)
    else if guarded && !w.answers[1].yes then Some(ContextStale)
    else None
  }

  /** What a confirmation on such a script comes to. */
  function Redemption(
    w: World, p: Plane, policy: Policy, profile: Profile, grant: Grant, listed: bool, key: Id, approved: bool, guarded: bool)
    : Result
    requires |w.answers| >= if guarded then 17 else 14
  {
    var defect := Defect(w, grant, listed, key, guarded);
    if defect.Some? then Result(Denied, defect)
    else Due(Recalled(w, grant.command.id, guarded), p, policy, profile, grant.command, !approved, approved, guarded)
  }

  lemma RecalledAmple(w: World, id: Id, guarded: bool)
    ensures Plenty(w, guarded) ==> Ample(Recalled(w, id, guarded), guarded) && |w.answers| >= if guarded then 17 else 14
  {
  }

  lemma AmpleEnough(w: World, guarded: bool)
    ensures Ample(w, guarded) ==> |w.answers| >= if guarded then 12 else 10
    ensures Plenty(w, guarded) ==> |w.answers| >= if guarded then 17 else 14
  {
  }

  lemma DueSame(
    w: World, p: Plane, p': Plane, policy: Policy, profile: Profile, c: Command, canceled: bool, confirmed: bool, guarded: bool)
    requires p'.catalog == p.catalog && p'.seen == p.seen && |w.answers| >= if guarded then 12 else 10
    ensures Due(w, p', policy, profile, c, canceled, confirmed, guarded) == Due(w, p, policy, profile, c, canceled, confirmed, guarded)
  {
    assert Refusal(p', policy, profile, c, confirmed) == Refusal(p, policy, profile, c, confirmed);
  }

  lemma AmpleSame(
    w: World, p: Plane, p': Plane, policy: Policy, profile: Profile, c: Command, canceled: bool, confirmed: bool, guarded: bool)
    requires p'.catalog == p.catalog && p'.seen == p.seen
    ensures Ample(w, guarded) ==>
              && |w.answers| >= (if guarded then 12 else 10)
              && Due(w, p', policy, profile, c, canceled, confirmed, guarded)
                 == Due(w, p, policy, profile, c, canceled, confirmed, guarded)
  {
    hide Due;
    if Ample(w, guarded) {
      DueSame(w, p, p', policy, profile, c, canceled, confirmed, guarded);
    }
  }

  lemma RedemptionSame(
    w: World, p: Plane, p': Plane, policy: Policy, profile: Profile, grant: Grant, listed: bool, key: Id, approved: bool,
    guarded: bool)
    requires p'.catalog == p.catalog && p'.seen == p.seen
    ensures Plenty(w, guarded) ==>
              && |w.answers| >= (if guarded then 17 else 14)
              && Redemption(w, p', policy, profile, grant, listed, key, approved, guarded)
                 == Redemption(w, p, policy, profile, grant, listed, key, approved, guarded)
  {
    hide Due, Recalled, Ample, Smooth;
    if Plenty(w, guarded) {
      RecalledAmple(w, grant.command.id, guarded);
      AmpleSame(Recalled(w, grant.command.id, guarded), p, p', policy, profile, grant.command, !approved, approved, guarded);
      AmpleEnough(w, guarded);
    }
  }

  /** The script of a confirmation in order, up to its dispatch. */
  lemma PlentySteps(w: World, id: Id, guarded: bool)
    ensures Plenty(w, guarded) ==>
              var w1 := Next(w);
              && |w.answers| >= (if guarded then 17 else 14) && First(w) == w.answers[0] && First(w).ok && First(w).calls == []
              && Smooth(w, 5) && First(w1) == w.answers[1] && First(w1).ok && First(w1).calls == [] && Smooth(w1, 5)
              && (guarded ==> Smooth(Next(w1), 5))
              && (!guarded ==> Smooth(w1, 3))
  {
    hide Smooth;
    var n := if guarded then 17 else 14;
    SmoothStep(w, n);
    SmoothStep(Next(w), n - 1);
    SmoothStep(Next(Next(w)), n - 2);
  }

  lemma SmoothWritten(w: World, id: Id, note: Note, n: nat)
    requires Smooth(w, n) && n >= 3
    ensures Smooth(Written(w, id, note), n - 3)
  {
  }

  /** A confirmation of the command can be requested, and its preview journaled, with the next four answers. */
  predicate Offerable(w: World, p: Plane, policy: Policy, profile: Profile, c: Command, key: Id, n: nat) {
    Smooth(w, n) && n >= 4 && key != "" && Refusal(p, policy, profile, c, true).None? && |p.grants| < PENDING_LIMIT
  }

  /** The world after such a request. */
  function Requested(w: World, c: Command): World {
    Written(Next(w).(issued := w.issued + 1), c.id, Preview)
  }

  /** A dispatch of an executable command whose first clock callback requests confirmation of it. */
  predicate Overtaking(w: World, p: Plane, policy: Policy, profile: Profile, c: Command) {
    && !w.closed && |w.answers| >= 2 && w.answers[0].ok && w.answers[1].ok
    && |w.answers[1].calls| == 1 && w.answers[1].calls[0].Requesting? && w.answers[1].calls[0].command == c
    && Offerable(w.(answers := w.answers[2..]), p, policy, profile, c, w.answers[1].calls[0].key, 7)
    && c.id !in p.seen && c.id !in Known(w.events) && !Previewed(w.events, c.id)
    && Refusal(p, policy, profile, c, false).None?
  }

  lemma OvertakingUse(w: World, p: Plane, policy: Policy, profile: Profile, c: Command)
    ensures Overtaking(w, p, policy, profile, c) ==> Overtaking(w, p.(users := p.users + 1), policy, profile, c)
  {
  }

  lemma SmoothOffer(w: World)
    ensures Smooth(w, 4) ==>
              && w.answers != [] && w.answers[0].ok && w.answers[0].calls == []
              && Smooth(Next(w).(issued := w.issued + 1), 3) && Next(w).issued == w.issued
  {
  }

  lemma SmoothIssued(w: World, n: nat)
    requires Smooth(w, n)
    ensures Smooth(w.(issued := w.issued + 1), n)
  {
  }

  lemma OvertakingMeans(w: World, p: Plane, policy: Policy, profile: Profile, c: Command)
    ensures Overtaking(w, p, policy, profile, c) ==>
              !Previewed(w.events, c.id) && Refusal(p, policy, profile, c, false).None?
  {
  }

  /** The review of such a dispatch finds the script as its clock callback needs it, and leaves what the effect needs. */
  lemma OvertakenReview(w: World, p: Plane, policy: Policy, profile: Profile, c: Command)
    ensures Overtaking(w, p, policy, profile, c) ==>
              var (w1, p1) := (Next(w), p.(seen := p.seen + Known(w.events)));
              && !w.closed && w.answers != [] && w.answers[0].ok
              && w1.answers != [] && w1.answers[0].ok && |w1.answers[0].calls| == 1
              && w1.answers[0].calls[0].Requesting? && w1.answers[0].calls[0].command == c
              && Offerable(Next(w1), p1, policy, profile, c, w1.answers[0].calls[0].key, 4)
              && Smooth(Requested(Next(w1), c), 3) && Previewed(Requested(Next(w1), c).events, c.id) && c.id !in p1.seen
  {
    if Overtaking(w, p, policy, profile, c) {
      var w2 := Next(Next(w));
      assert w2 == w.(answers := w.answers[2..]);
      SmoothNext(w2, 7);
      SmoothIssued(Next(w2), 6);
      var w3 := Next(w2).(issued := w2.issued + 1);
      SmoothWritten(w3, c.id, Preview, 6);
      assert Written(w3, c.id, Preview).events[|w.events|].note.Preview?;
    }
  }

  class Journal {
    var w: World

    constructor (answers: seq<Answer>)
      ensures w == World([], false, 0, [], [], [], answers) && Recorded(w)
    {
      w := World([], false, 0, [], [], [], answers);
    }

    /** The next answer; after the script nothing comes any more. */
    method Ask() returns (a: Answer)
      modifies this
      ensures w == Next(old(w)) && Remaining(old(w.answers), w.answers)
      ensures a == First(old(w))
    {
      if w.answers == [] {
        a := Silence;
      } else {
        a := w.answers[0];
        w := Next(w);
      }
    }

    /** Stores a record once: an equal record is already there, a conflicting one is refused. A failing
        store may or may not have kept the record. */
    method Append(record: Record) returns (ok: bool)
      modifies this
      ensures w == old(w).(answers := w.answers) || w == Appended(old(w).(answers := w.answers), record)
      ensures Remaining(old(w.answers), w.answers)
      ensures ok ==> record in w.events
      ensures ok && w.events == old(w.events) + [record] ==> forall r :: r in old(w.events) ==> r.event != record.event
      ensures old(w.closed) || (exists r :: r in old(w.events) && r.event == record.event && r != record) ==>
                !ok && w == old(w)
      ensures !old(w.closed) && old(w.answers) != [] && old(w.answers)[0].ok
                && (forall r :: r in old(w.events) ==> r.event != record.event) ==>
                ok && w == Appended(Next(old(w)), record)
    {
      if w.closed {
        return false;
      }
      if exists r :: r in w.events && r.event == record.event {
        return record in w.events && forall r :: r in w.events && r.event == record.event ==> r == record;
      }
      var a := Ask();
      ok := a.ok;
      if a.ok || a.yes {
        w := Appended(w, record);
      }
    }

    method Read() returns (events: Option<seq<Record>>)
      modifies this
      ensures w == old(w).(answers := w.answers) && Remaining(old(w.answers), w.answers)
      ensures events.Some? ==> events.value == w.events && !w.closed
      ensures !w.closed && old(w.answers) != [] && old(w.answers)[0].ok ==> events.Some? && w == Next(old(w))
    {
      if w.closed {
        return None;
      }
      var a := Ask();
      events := if a.ok then Some(w.events) else None;
    }
  }

  class ControlPlane {
    const journal: Journal
    const policy: Policy
    const profile: Profile
    var p: Plane

    ghost predicate Valid()
      reads this, journal
    {
      Sound(journal.w, p)
    }

    /** A collaborator runs: it calls this plane back in any way, and answers or raises. */
    method Callback() returns (a: Answer)
      requires Valid()
      modifies this, journal
      ensures Valid() && Acts(old(journal.w), old(p), journal.w, p, Nothing)
      ensures |journal.w.answers| <= |old(journal.w.answers)|
      ensures a == First(old(journal.w))
      ensures a.calls == [] ==> journal.w == Next(old(journal.w)) && p == old(p)
      ensures |a.calls| == 1 && a.calls[0].Requesting?
              && old(Offerable(Next(journal.w), p, policy, profile, a.calls[0].command, a.calls[0].key, 4)) ==>
                && journal.w == Requested(Next(old(journal.w)), a.calls[0].command) && p == old(p).(grants := p.grants)
      decreases |journal.w.answers|, 0
    {
      hide Sound, Acts, Offerable, Requested, Asked;
      a := journal.Ask();
      AskKeeps(old(journal.w), p, journal.w);
      ghost var w1 := journal.w;
      for i := 0 to |a.calls|
        invariant Valid() && Acts(old(journal.w), old(p), journal.w, p, Nothing)
        invariant |journal.w.answers| <= |w1.answers|
        invariant i == 0 ==> journal.w == w1 && p == old(p)
        invariant i == 1 && a.calls[0].Requesting?
                  && Offerable(w1, old(p), policy, profile, a.calls[0].command, a.calls[0].key, 4) ==>
                    journal.w == Requested(w1, a.calls[0].command) && p == old(p).(grants := p.grants)
      {
        ghost var (w2, p2) := (journal.w, p);
        Operate(a.calls[i]);
        CalledFor(old(journal.w), a, i);
        ActsTransitive(old(journal.w), old(p), w2, p2, journal.w, p, Nothing, Own(a.calls[i]));
      }
    }

    /** Starts with what the journal already holds; nothing of an earlier plane's memory survives. */
    constructor (entries: seq<Capability>, policy: Policy, profile: Profile, journal: Journal)
      requires Coherent(entries) && Recorded(journal.w)
      ensures Valid() && p.seen == {} && p.grants == map[] && p.users == 0
      ensures this.journal == journal && this.policy == policy && this.profile == profile && p.catalog == Catalog(entries)
    {
      this.journal, this.policy, this.profile := journal, policy, profile;
      p := Plane(Catalog(entries), if entries == [] then 1 else entries[0].version, 0, {}, map[]);
    }

    /** Any public operation. */
    method Operate(op: Operation)
      requires Valid()
      modifies this, journal
      ensures Valid() && Acts(old(journal.w), old(p), journal.w, p, Own(op))
      ensures |journal.w.answers| <= |old(journal.w.answers)|
      ensures op.Requesting? && old(Offerable(journal.w, p, policy, profile, op.command, op.key, 4)) ==>
                journal.w == Requested(old(journal.w), op.command) && p == old(p).(grants := p.grants)
      decreases |journal.w.answers|, 9
    {
      hide Sound, Acts, Offerable, Requested;
      ActsReflexive(journal.w, p, Own(op));
      match op
      case Dispatching(command, canceled, guarded) =>
        var _, _ := Dispatch(command, canceled, guarded);
      case Confirming(token, listed, key, approved, guarded) =>
        var _, _ := Confirm(token, listed, key, approved, guarded);
      case Requesting(command, key) =>
        var _ := RequestConfirmation(command, key);
      case Observing(command, note) =>
        if note.Preview? || note.Confirmed? {
          var _ := Observe(command, note);
        }
      case Replacing(entries, expected, version) =>
        var _ := ReplaceCatalog(entries, expected, version);
    }

    /** Installs a complete newer catalog and drops every pending grant, unless one is in use. */
    method ReplaceCatalog(entries: seq<Capability>, expected: int, version: int) returns (ok: bool)
      requires Valid()
      modifies this
      ensures ok <==> && expected >= 1 && version >= 1 && Coherent(entries) && (entries != [] ==> entries[0].version == version)
                      && old(p.users) == 0 && expected == old(p.version) < version
      ensures !ok ==> p == old(p)
      ensures ok ==> p == old(p).(catalog := Catalog(entries), version := version, grants := map[])
      ensures Valid() && Acts(journal.w, old(p), journal.w, p, Nothing)
    {
      hide Sound, Acts;
      ActsReflexive(journal.w, p, Nothing);
      SnapshotsCoherent(entries);
      if expected < 1 || version < 1 || !Snapshots(entries) || (entries != [] && entries[0].version != version)
         || p.users > 0 || expected != p.version || version <= p.version {
        return false;
      }
      InstallKeeps(journal.w, p, entries, version);
      p := p.(catalog := Catalog(entries), version := version, grants := map[]);
      return true;
    }

    /** Builds a record, with a clock and an identifier callback, and appends it. */
    method Write(command: Command, note: Note) returns (ok: bool)
      requires Valid()
      modifies this, journal
      ensures Valid() && Acts(old(journal.w), old(p), journal.w, p, Shown(note, command.id))
      ensures |journal.w.answers| <= |old(journal.w.answers)|
      ensures ok ==> Journaled(journal.w.events, note, command.id)
      ensures old(Smooth(journal.w, 3)) ==> ok && journal.w == Written(old(journal.w), command.id, note) && p == old(p)
      ensures old(Smooth(journal.w, 3)) ==>
                && |old(journal.w.answers)| >= 3
                && var (a, b) := (old(journal.w.answers)[0], old(journal.w.answers)[1]);
                   journal.w.events == old(journal.w.events) +
                     [if note.Started? || note.Finished? then Record(b.name, command.id, note, a.number)
                      else Record(a.name, command.id, note, b.number)]
      decreases |journal.w.answers|, 1
    {
      hide Sound, Acts, Smooth, Written, Appended, Next, Storable;
      WrittenMeans(journal.w, command.id, note);
      ghost var (w0, p0, x) := (journal.w, p, Shown(note, command.id));
      SmoothSteps(w0, command.id, note);
      var first := Callback();
      Widen(w0, p0, journal.w, p, x);
      if !first.ok {
        return false;
      }
      ghost var (w1, p1) := (journal.w, p);
      var second := Callback();
      ActsTransitive(w0, p0, w1, p1, journal.w, p, x, Nothing);
      if !second.ok {
        return false;
      }
      ghost var (w2, p2) := (journal.w, p);
      ok := Store(Made(first, second, command.id, note));
      ActsTransitive(w0, p0, w2, p2, journal.w, p, x, x);
    }

    method Store(record: Record) returns (ok: bool)
      requires Valid()
      modifies journal
      ensures Valid() && Acts(old(journal.w), p, journal.w, p, Shown(record.note, record.command))
      ensures |journal.w.answers| <= |old(journal.w.answers)|
      ensures ok ==> Journaled(journal.w.events, record.note, record.command)
      ensures old(Storable(journal.w, record)) ==> ok && journal.w == Appended(Next(old(journal.w)), record)
    {
      hide Sound, Acts, Appended, Journaled, Next, Remaining;
      ok := journal.Append(record);
      StoreKeeps(old(journal.w), p, journal.w, record);
    }

    /** Appends an observation; never an execution receipt. */
    method Observe(command: Command, note: Note) returns (ok: bool)
      requires Valid() && (note.Preview? || note.Confirmed?)
      modifies this, journal
      ensures Valid() && Acts(old(journal.w), old(p), journal.w, p, Shown(note, command.id))
      ensures |journal.w.answers| <= |old(journal.w.answers)|
      ensures ok ==> Journaled(journal.w.events, note, command.id)
      ensures old(Smooth(journal.w, 3)) ==> ok && journal.w == Written(old(journal.w), command.id, note) && p == old(p)
      decreases |journal.w.answers|, 2
    {
      ok := Write(command, note);
    }

    /** A result is built with one identifier callback. */
    method Reply(status: Status, error: Option<Denial>) returns (result: Result)
      requires Valid()
      modifies this, journal
      ensures Valid() && Acts(old(journal.w), old(p), journal.w, p, Nothing)
      ensures |journal.w.answers| <= |old(journal.w.answers)|
      ensures result.Raised? || result == Result(status, error)
      ensures First(old(journal.w)).ok ==> result.Result?
      ensures First(old(journal.w)).calls == [] ==> journal.w == Next(old(journal.w)) && p == old(p)
      decreases |journal.w.answers|, 1
    {
      var named := Callback();
      result := if named.ok then Result(status, error) else Raised;
    }

    /** The guard, if there is one: anything but an exact yes is a stale context. Its answer is on record. */
    method GuardDenial(guarded: bool, id: Id) returns (denial: Option<Denial>)
      requires Valid()
      modifies this, journal
      ensures Valid() && Acts(old(journal.w), old(p), journal.w, p, Nothing)
      ensures |journal.w.answers| <= |old(journal.w.answers)|
      ensures denial.None? || denial == Some(ContextStale)
      ensures !guarded ==> denial.None? && journal.w == old(journal.w) && p == old(p)
      ensures guarded ==>
                && |journal.w.guards| > |old(journal.w.guards)| && old(journal.w.events) <= journal.w.events
                && journal.w.guards[|journal.w.guards| - 1] == Guard(id, |journal.w.events|, denial.None?)
      ensures guarded ==> (denial.None? <==> First(old(journal.w)).ok && First(old(journal.w)).yes)
      ensures guarded && First(old(journal.w)).calls == [] ==>
                && p == old(p)
                && journal.w == var w := Next(old(journal.w)); w.(guards := w.guards + [Guard(id, |w.events|, denial.None?)])
      decreases |journal.w.answers|, 1
    {
      hide Sound, Acts;
      ActsReflexive(journal.w, p, Nothing);
      if !guarded {
        return None;
      }
      var a := Callback();
      ghost var w1 := journal.w;
      ActsShape(old(journal.w), old(p), w1, p, Nothing);
      denial := if a.ok && a.yes then None else Some(ContextStale);
      journal.w := journal.w.(guards := journal.w.guards + [Guard(id, |journal.w.events|, denial.None?)]);
      NoteKeeps(w1, p, journal.w);
      ActsTransitive(old(journal.w), old(p), w1, p, journal.w, p, Nothing, Nothing);
    }

    /** Reads the journal as it is at the call, learns from it, and takes the command unless it is already known. */
    method Consult(command: Command) returns (view: View)
      requires Valid() && p.users > 0
      modifies this, journal
      ensures Valid() && Acts(old(journal.w), old(p), journal.w, p, Nothing)
      ensures |journal.w.answers| <= |old(journal.w.answers)|
      ensures view.Familiar? ==> command.id in p.seen
      ensures view.Fresh? ==>
                view.events == old(journal.w.events) && command.id !in old(p.seen) && Reserved(journal.w, p, command.id)
      ensures old(Overtaking(journal.w, p, policy, profile, command)) ==>
                view.Fresh? && Smooth(journal.w, 3) && Previewed(journal.w.events, command.id)
      ensures old(Smooth(journal.w, 2)) ==>
                journal.w == Next(Next(old(journal.w)))
                && if Repeated(old(journal.w), old(p), command) then view.Familiar? else view.Fresh?
      decreases |journal.w.answers|, 2
    {
      hide Sound, Acts, Refusal, Reserved, Smooth, Previewed, Next, Requested, Offerable, Overtaking, Informed, Remaining;
      ghost var (w0, p0) := (journal.w, p);
      ActsReflexive(w0, p0, Nothing);
      OvertakenReview(w0, p0, policy, profile, command);
      SmoothStep(w0, 2);
      SmoothStep(Next(w0), 1);
      var events := journal.Read();
      AskKeeps(w0, p, journal.w);
      if events.None? {
        return Unreadable;
      }
      ghost var w1 := journal.w;
      Learn(w1, p);
      p := p.(seen := p.seen + Known(events.value));
      ghost var p1 := p;
      ActsTransitive(w0, p0, w1, p0, w1, p1, Nothing, Nothing);
      var clock := Callback();
      if !clock.ok {
        ActsTransitive(w0, p0, w1, p1, journal.w, p, Nothing, Nothing);
        return Failed;
      }
      if command.id in p.seen {
        ActsTransitive(w0, p0, w1, p1, journal.w, p, Nothing, Nothing);
        return Familiar;
      }
      Reserve(w1, p1, p1, journal.w, p, command.id);
      p := p.(seen := p.seen + {command.id});
      ActsTransitive(w0, p0, w1, p1, journal.w, p, Nothing, Nothing);
      return Fresh(events.value);
    }

    /** The decision before any effect, on the journal as it was at the call. `first` is the guard's answer in it. */
    method Review(command: Command, confirmed: bool, guarded: bool)
      returns (review: Review, reading: nat, first: nat)
      requires Valid() && p.users > 0
      modifies this, journal
      ensures Valid() && Acts(old(journal.w), old(p), journal.w, p, Nothing)
      ensures |journal.w.answers| <= |old(journal.w.answers)|
      ensures reading == |old(journal.w.events)|
      ensures review.Reviewed? && !review.duplicate ==> command.id !in old(p.seen) && Reserved(journal.w, p, command.id)
      ensures review.Reviewed? && review.duplicate ==> review.denial == Some(Duplicate) && command.id in p.seen
      ensures review.Reviewed? && review.denial.None? ==>
                && command.version == p.version && reading <= |journal.w.events|
                && Refusal(p, policy, profile, command, confirmed).None?
                && (!confirmed ==> !Previewed(old(journal.w.events), command.id))
                && (guarded ==> Passed(journal.w, first, command.id, reading))
      ensures !confirmed && !guarded && old(Overtaking(journal.w, p, policy, profile, command)) ==>
                && review == Reviewed(false, None) && Smooth(journal.w, 3) && Previewed(journal.w.events, command.id)
      ensures old(Ample(journal.w, guarded)) ==>
                && |old(journal.w.answers)| >= (if guarded then 12 else 10)
                && var objection := Objection(old(journal.w), old(p), policy, profile, command, confirmed, guarded);
                   && review == Reviewed(objection == Some(Duplicate), objection)
                   && Smooth(journal.w, if guarded then 9 else 8)
                   && (objection.None? ==> journal.w.answers == old(journal.w.answers)[if guarded then 3 else 2..])
      decreases |journal.w.answers|, 3
    {
      hide Sound, Acts, Refusal, Reserved, Smooth, Previewed, Overtaking, Ample, Repeated;
      ghost var (w0, p0) := (journal.w, p);
      OvertakingMeans(w0, p0, policy, profile, command);
      AmpleSteps(w0, guarded);
      first, reading := 0, |journal.w.events|;
      var view := Consult(command);
      if view.Unreadable? || view.Failed? {
        return if view.Failed? then Crashed else Blind, reading, first;
      }
      if view.Familiar? {
        return Reviewed(true, Some(Duplicate)), reading, first;
      }
      if Previewed(view.events, command.id) && !confirmed {
        return Reviewed(false, Some(ConfirmationRequired)), reading, first;
      }
      ghost var (w2, p2) := (journal.w, p);
      var denial := GuardDenial(guarded, command.id);
      first := if guarded then |journal.w.guards| - 1 else 0;
      SmoothLike(Next(w2), journal.w, 9);
      Stays(w2, p2, journal.w, p, None, command.id);
      ActsTransitive(w0, p0, w2, p2, journal.w, p, Nothing, Nothing);
      ReviewEnd(w0, p0, journal.w, p, reading, policy, profile, command, confirmed);
      if denial.None? {
        denial := Refusal(p, policy, profile, command, confirmed);
      }
      return Reviewed(false, denial), reading, first;
    }

    /** The intent is journaled, and the guard is asked once more; then nothing stands against the effect. */
    method Intend(command: Command, grant: Option<Grant>, guarded: bool, ghost w0: World, ghost p0: Plane)
      returns (stop: Option<Outcome>)
      requires Valid() && p.users > 0 && Acts(w0, p0, journal.w, p, Nothing)
      requires Reserved(journal.w, p, command.id) && Taken(journal.w, p, grant)
      modifies this, journal
      ensures Valid() && Acts(w0, p0, journal.w, p, Held(grant)) && p.users == old(p.users) && p.version == old(p.version)
      ensures Reserved(journal.w, p, command.id) && Taken(journal.w, p, grant)
      ensures |journal.w.answers| <= |old(journal.w.answers)| && old(journal.w.events) <= journal.w.events
      ensures stop.None? || stop == Some(Unwritten) || stop == Some(Stopped(ContextStale))
      ensures stop.None? ==> Intended(journal.w.events, command.id)
      ensures stop.None? && guarded ==>
                |journal.w.guards| > 0 && exists w :: AfterIntent(old(journal.w), w, journal.w, command.id)
      ensures !guarded && old(Smooth(journal.w, 3)) ==> stop.None?
      ensures old(Smooth(journal.w, if guarded then 9 else 8)) ==>
                && |old(journal.w.answers)| >= (if guarded then 9 else 8)
                && stop == (if guarded && !old(journal.w.answers)[3].yes then Some(Stopped(ContextStale)) else None)
                && Smooth(journal.w, 5) && First(journal.w) == old(journal.w.answers)[if guarded then 4 else 3]
      decreases |journal.w.answers|, 2
    {
      hide Sound, Acts, Reserved, Taken, Smooth, Written;
      ghost var x := Held(grant);
      Widen(w0, p0, journal.w, p, x);
      ghost var (w1, p1) := (journal.w, p);
      PerformSteps(w1, command.id, guarded);
      var wrote := Write(command, Started);
      ghost var (w2, p2) := (journal.w, p);
      PerformStep(w0, p0, w1, p1, w2, p2, grant, command.id);
      ActsShape(w1, p1, w2, p2, Nothing);
      if !wrote {
        return Some(Unwritten);
      }
      var denial := GuardDenial(guarded, command.id);
      PerformStep(w0, p0, w2, p2, journal.w, p, grant, command.id);
      ActsShape(w2, p2, journal.w, p, Nothing);
      assert Intended(w2.events, command.id);
      IntentStays(w2.events, journal.w.events, command.id);
      SmoothLike(Next(w2), journal.w, 5);
      assert guarded && denial.None? ==> AfterIntent(w1, w2, journal.w, command.id);
      return if denial.Some? then Some(Stopped(denial.value)) else None;
    }

    /** Intent, guard, effect. The effect is recorded as it starts; its executor may call back. */
    method Perform(
      command: Command, grant: Option<Grant>, at: int, key: Id, reading: nat, guarded: bool,
      first: nat, ghost w0: World, ghost p0: Plane)
      returns (outcome: Outcome, ghost ran: Option<Run>)
      requires Valid() && p.users > 0 && Acts(w0, p0, journal.w, p, Nothing) && command.id !in p0.seen
      requires Reserved(journal.w, p, command.id) && Taken(journal.w, p, grant) && Warranted(command, grant, at, key)
      requires command.version == p.version && reading == |w0.events| <= |journal.w.events|
      requires grant.None? ==> !Previewed(w0.events, command.id)
      requires guarded ==> Passed(journal.w, first, command.id, reading)
      modifies this, journal
      ensures Valid() && Acts(w0, p0, journal.w, p, Held(grant)) && p.users == old(p.users)
      ensures |journal.w.answers| <= |old(journal.w.answers)|
      ensures ran.Some? == outcome.Executed?
      ensures outcome.Executed? ==>
                || outcome.result.Raised? || outcome.result == Result(Uncertain, Some(ExecutorUncertain))
                || outcome.result == Told(Heard(ran.value, w0))
      ensures outcome.Executed? ==> outcome.result.Raised? || Outright(outcome.result)
      ensures ran.Some? ==>
                && ran.value == Run(command, old(p.version), reading, ran.value.done, grant, at, key, guarded, first, ran.value.last,
                                    ran.value.shown, ran.value.left)
                && ran.value in journal.w.runs && Followed(ran.value, w0, journal.w) && ran.value.left <= |w0.answers|
                && |old(journal.w.events)| <= ran.value.done <= |journal.w.events| && old(journal.w.events) <= journal.w.events
      ensures !guarded && old(Smooth(journal.w, 3)) ==> ran.Some?
      ensures old(Smooth(journal.w, if guarded then 9 else 8)) ==>
                && |old(journal.w.answers)| >= (if guarded then 9 else 8)
                && if guarded && !old(journal.w.answers)[3].yes then outcome == Stopped(ContextStale) && Smooth(journal.w, 4)
                   else outcome == Executed(Told(old(journal.w.answers)[if guarded then 4 else 3])) && Smooth(journal.w, 3)
      decreases |journal.w.answers|, 3
    {
      hide Sound, Acts, Reserved, Taken, Sanctioned, Previewed, Smooth, Watched, Followed, Passed, Written, Warranted, Intended;
      hide Told, Heard, First, AfterIntent;
      ghost var x := Held(grant);
      ghost var w1 := journal.w;
      var stop := Intend(command, grant, guarded, w0, p0);
      ExecuteSteps(journal.w);
      if stop.Some? {
        return stop.value, None;
      }
      ActsShape(w0, p0, journal.w, p, x);
      var last := if guarded then |journal.w.guards| - 1 else 0;
      var r := Run(command, p.version, reading, |journal.w.events|, grant, at, key, guarded, first, last, |journal.w.shown|,
                   |journal.w.answers|);
      if guarded {
        ghost var w2 :| AfterIntent(w1, w2, journal.w, command.id);
        GuardedTwice(w1, w2, journal.w, r);
      }
      assert w0.events[..reading] == w0.events;
      ghost var w3 := journal.w;
      PerformEnd(w0, p0, w0, w3, p, r);
      HeardNow(w0, p0, w3, p, r, x);
      FollowedNow(r, w0, p0, w3, p, x);
      journal.w := journal.w.(runs := journal.w.runs + [r]);
      ghost var (w4, p4) := (journal.w, p);
      RunAdded(w3, w4);
      var result := Execute();
      PerformAfter(w0, p0, w4, p4, journal.w, p, r);
      FollowedStill(r, w0, w4, p4, journal.w, p);
      ActsShape(w4, p4, journal.w, p, Nothing);
      FollowedBounds(r, w0, journal.w);
      return Executed(result), Some(r);
    }

    /** The executor, and the result made of its answer; anything else is uncertain. */
    method Execute() returns (result: Result)
      requires Valid()
      modifies this, journal
      ensures Valid() && Acts(old(journal.w), old(p), journal.w, p, Nothing)
      ensures |journal.w.answers| <= |old(journal.w.answers)|
      ensures || result.Raised? || result == Result(Uncertain, Some(ExecutorUncertain))
              || result == Told(First(old(journal.w)))
      ensures result.Raised? || Outright(result)
      ensures old(Smooth(journal.w, 2)) ==>
                result == Told(First(old(journal.w))) && journal.w == Next(Next(old(journal.w))) && p == old(p)
      decreases |journal.w.answers|, 2
    {
      hide Sound, Acts, Smooth, Next;
      SmoothStep(journal.w, 2);
      SmoothStep(Next(journal.w), 1);
      var a := Callback();
      ghost var (w1, p1) := (journal.w, p);
      result := Raised;
      if a.ok && a.status.Some? && !a.status.value.Denied? {
        result := Reply(a.status.value, None);
        ActsTransitive(old(journal.w), old(p), w1, p1, journal.w, p, Nothing, Nothing);
        w1, p1 := journal.w, p;
      }
      if result.Raised? {
        result := Reply(Uncertain, Some(ExecutorUncertain));
        ActsTransitive(old(journal.w), old(p), w1, p1, journal.w, p, Nothing, Nothing);
      }
    }

    /** Persists the completion; without it nothing executed is claimed as more than uncertain. */
    method Complete(command: Command, result: Result, executed: bool) returns (final: Result)
      requires Valid() && result.Result?
      modifies this, journal
      ensures Valid() && Acts(old(journal.w), old(p), journal.w, p, Nothing)
      ensures |journal.w.answers| <= |old(journal.w.answers)|
      ensures || final.Raised?
              || (final == result && Journaled(journal.w.events, Finished(result.status), command.id))
              || final == Result(if executed then Uncertain else result.status, Some(JournalUnavailable))
      ensures old(Smooth(journal.w, 3)) ==> final == result
      decreases |journal.w.answers|, 2
    {
      hide Sound, Acts, Journaled;
      var wrote := Write(command, Finished(result.status));
      if wrote {
        return result;
      }
      ghost var (w1, p1) := (journal.w, p);
      final := Reply(if executed then Uncertain else result.status, Some(JournalUnavailable));
      ActsTransitive(old(journal.w), old(p), w1, p1, journal.w, p, Nothing, Nothing);
    }

    /** The review's answer, and the effect if nothing stands against it. */
    method Proceed(command: Command, canceled: bool, grant: Option<Grant>, at: int, key: Id, guarded: bool)
      returns (course: Course, ghost ran: Option<Run>)
      requires Valid() && p.users > 0 && Taken(journal.w, p, grant) && Warranted(command, grant, at, key)
      modifies this, journal
      ensures Valid() && Acts(old(journal.w), old(p), journal.w, p, Held(grant)) && p.users == old(p.users)
      ensures |journal.w.answers| <= |old(journal.w.answers)|
      ensures ran.Some? == course.Effected?
      ensures course.Effected? ==>
                && ran.value.left <= |old(journal.w.answers)|
                && (course.result.Raised? || Outright(course.result))
                && (course.result.Raised? || course.result.status.Uncertain? || course.result == Told(Heard(ran.value, old(journal.w))))
                && Admitted(ran.value, old(journal.w), old(p), journal.w, command, canceled, grant, guarded)
                && Refusal(old(p), policy, profile, command, grant.Some?).None?
      ensures course.Declined? && !course.receipted ==> course.denial == Some(JournalUnavailable)
      ensures old(Ample(journal.w, guarded)) ==>
                && |old(journal.w.answers)| >= (if guarded then 12 else 10)
                && !course.Halted? && (course.Declined? ==> course.receipted)
                && Smooth(journal.w, if course.Effected? then 3 else 4)
                && (if course.Effected? then course.result else Unaffected(course.denial))
                   == Due(old(journal.w), old(p), policy, profile, command, canceled, grant.Some?, guarded)
      ensures !canceled && !guarded && grant.None? && old(Overtaking(journal.w, p, policy, profile, command)) ==>
                && course.Effected? && ran.value.done <= |journal.w.events|
                && Previewed(journal.w.events[..ran.value.done], command.id)
      decreases |journal.w.answers|, 4
    {
      hide Sound, Acts, Reserved, Taken, Previewed, Refusal, Warranted, Smooth, Followed, Overtaking, Ample, Objection;
      hide Told, Heard, Asked, Journaled, Outright;
      ghost var (w0, p0) := (journal.w, p);
      ran := None;
      var review, reading, first := Review(command, grant.Some?, guarded);
      Reviewing(w0, p0, journal.w, p, grant, policy, profile, command);
      SmoothFewer(journal.w, if guarded then 9 else 8, 4);
      if review.Crashed? {
        course := Halted;
      } else if review.Blind? {
        course := Declined(Some(JournalUnavailable), false);
      } else if canceled && !review.duplicate {
        course := Declined(None, true);
      } else if review.denial.Some? {
        course := Declined(review.denial, true);
      } else {
        ghost var w1 := journal.w;
        var outcome;
        outcome, ran := Perform(command, grant, at, key, reading, guarded, first, w0, p0);
        if outcome.Executed? {
          PreviewStays(w1.events, journal.w.events, ran.value.done, command.id);
        }
        match outcome
        case Executed(result) => course := Effected(result);
        case Stopped(denial) => course := Declined(Some(denial), true);
        case Unwritten => course := Declined(Some(JournalUnavailable), false);
      }
    }

    /** What the command came to, as a result: an effect's, a cancellation or a denial. */
    method Attempt(
      command: Command, canceled: bool, grant: Option<Grant>, at: int, key: Id, guarded: bool)
      returns (result: Result, receipted: bool, executed: bool, ghost ran: Option<Run>)
      requires Valid() && p.users > 0 && Taken(journal.w, p, grant) && Warranted(command, grant, at, key)
      modifies this, journal
      ensures Valid() && Acts(old(journal.w), old(p), journal.w, p, Held(grant)) && p.users == old(p.users)
      ensures |journal.w.answers| <= |old(journal.w.answers)|
      ensures executed == ran.Some? && (ran.Some? && result.Result? ==> result.error != Some(JournalUnavailable))
      ensures !receipted && result.Result? ==> ran.None? && result == Result(Denied, Some(JournalUnavailable))
      ensures ran.Some? ==> ran.value.left <= |old(journal.w.answers)|
      ensures ran.Some? && result.Result? ==>
                result.status.Uncertain? || result == Told(Heard(ran.value, old(journal.w)))
      ensures old(Ample(journal.w, guarded)) ==>
                && |old(journal.w.answers)| >= (if guarded then 12 else 10) && receipted && Smooth(journal.w, 3)
                && result == Due(old(journal.w), old(p), policy, profile, command, canceled, grant.Some?, guarded)
      ensures result.Result? && result.status.Denied? ==> ran.None?
      ensures result.Result? && (result.status.Success? || result.status.Failure? || result.status.Uncertain?) ==> ran.Some?
      ensures ran.Some? ==>
                && Admitted(ran.value, old(journal.w), old(p), journal.w, command, canceled, grant, guarded)
                && Refusal(old(p), policy, profile, command, grant.Some?).None?
      ensures !canceled && !guarded && grant.None? && old(Overtaking(journal.w, p, policy, profile, command)) ==>
                ran.Some? && ran.value.done <= |journal.w.events| && Previewed(journal.w.events[..ran.value.done], command.id)
      decreases |journal.w.answers|, 5
    {
      hide Sound, Acts, Taken, Previewed, Refusal, Warranted, Smooth, Overtaking, Ample, Due, Told, Heard, Admitted;
      AmpleEnough(journal.w, guarded);
      var course;
      course, ran := Proceed(command, canceled, grant, at, key, guarded);
      receipted, executed := course.Effected? || (course.Declined? && course.receipted), course.Effected?;
      match course
      case Halted => result := Raised;
      case Effected(told) => result := told;
      case Declined(denial, _) =>
        ghost var (w1, p1) := (journal.w, p);
        SmoothStep(w1, 4);
        result := Reply(if denial.Some? then Denied else Canceled, denial);
        Replied(old(journal.w), old(p), w1, p1, journal.w, p, grant);
    }

    /** Review, effect and receipt of one command. `ran` is the effect of this very call. */
    method Decide(command: Command, canceled: bool, grant: Option<Grant>, at: int, key: Id, guarded: bool)
      returns (result: Result, ghost ran: Option<Run>)
      requires Valid() && p.users > 0 && Taken(journal.w, p, grant) && Warranted(command, grant, at, key)
      modifies this, journal
      ensures Valid() && Acts(old(journal.w), old(p), journal.w, p, Held(grant)) && p.users == old(p.users)
      ensures |journal.w.answers| <= |old(journal.w.answers)|
      ensures Receipt(command, result, ran, old(journal.w), journal.w)
      ensures ran.Some? ==>
                && Admitted(ran.value, old(journal.w), old(p), journal.w, command, canceled, grant, guarded)
                && Refusal(old(p), policy, profile, command, grant.Some?).None?
      ensures !canceled && !guarded && grant.None? && old(Overtaking(journal.w, p, policy, profile, command)) ==>
                ran.Some? && ran.value.done <= |journal.w.events| && Previewed(journal.w.events[..ran.value.done], command.id)
      ensures old(Ample(journal.w, guarded)) ==>
                && |old(journal.w.answers)| >= (if guarded then 12 else 10)
                && result == Due(old(journal.w), old(p), policy, profile, command, canceled, grant.Some?, guarded)
      decreases |journal.w.answers|, 6
    {
      hide Sound, Acts, Taken, Refusal, Warranted, Journaled, Previewed, Overtaking, Followed, Ample, Smooth, Due;
      AmpleEnough(journal.w, guarded);
      var receipted, executed;
      result, receipted, executed, ran := Attempt(command, canceled, grant, at, key, guarded);
      if receipted && result.Result? {
        ghost var (w1, p1) := (journal.w, p);
        result := Complete(command, result, executed);
        Replied(old(journal.w), old(p), w1, p1, journal.w, p, grant);
        if ran.Some? {
          AdmittedStill(ran.value, old(journal.w), old(p), w1, p1, journal.w, p, command, canceled, grant, guarded);
        }
      }
    }

    /**
     An unconfirmed command. One that was previewed before the call has no effect. One whose effect follows a
     preview was previewed by a callback of this very call: if no callback asks for that, it never happens, and if
     the first clock callback of an executable command does, it always does.
     */
    method Dispatch(command: Command, canceled: bool, guarded: bool) returns (result: Result, ghost ran: Option<Run>)
      requires Valid()
      modifies this, journal
      ensures Valid() && Acts(old(journal.w), old(p), journal.w, p, Nothing)
      ensures |journal.w.answers| <= |old(journal.w.answers)|
      ensures Receipt(command, result, ran, old(journal.w), journal.w)
      ensures ran.Some? ==>
                && Admitted(ran.value, old(journal.w), old(p), journal.w, command, canceled, None, guarded)
                && Refusal(old(p), policy, profile, command, false).None?
      ensures Previewed(old(journal.w.events), command.id) ==> ran.None?
      ensures ran.Some? && !Asked(old(journal.w.answers), command.id) ==>
                ran.value.done <= |journal.w.events| && !Previewed(journal.w.events[..ran.value.done], command.id)
      ensures !canceled && !guarded && old(Overtaking(journal.w, p, policy, profile, command)) ==>
                ran.Some? && ran.value.done <= |journal.w.events| && Previewed(journal.w.events[..ran.value.done], command.id)
      ensures old(Ample(journal.w, guarded)) ==>
                && |old(journal.w.answers)| >= (if guarded then 12 else 10)
                && result == Due(old(journal.w), old(p), policy, profile, command, canceled, false, guarded)
      decreases |journal.w.answers|, 7
    {
      hide Sound, Acts, Refusal, Receipt, Overtaking, Ample, Due;
      UserKeeps(journal.w, p);
      AmpleSame(journal.w, p, p.(users := p.users + 1), policy, profile, command, canceled, false, guarded);
      OvertakingUse(journal.w, p, policy, profile, command);
      p := p.(users := p.users + 1);
      result, ran := Decide(command, canceled, None, 0, "", guarded);
      UseKeeps(old(journal.w), old(p), journal.w, p, Nothing);
      RefusalUse(old(p), policy, profile, command, false);
      p := p.(users := p.users - 1);
    }

    /** The command of a refused confirmation is spent, and the refusal is receipted if it can be. */
    method Refuse(command: Command, code: Denial) returns (result: Result)
      requires Valid()
      modifies this, journal
      ensures Valid() && Acts(old(journal.w), old(p), journal.w, p, Nothing)
      ensures |journal.w.answers| <= |old(journal.w.answers)|
      ensures command.id in p.seen
      ensures result.Raised? || (result.status.Denied? && (result.error == Some(code) || result.error == Some(JournalUnavailable)))
      ensures result.Result? && result.error != Some(JournalUnavailable) ==> Journaled(journal.w.events, Finished(Denied), command.id)
      ensures old(Smooth(journal.w, 5)) ==> result == Result(Denied, Some(code))
      decreases |journal.w.answers|, 3
    {
      hide Sound, Acts, Smooth, Journaled;
      ghost var w := journal.w;
      SmoothStep(w, 5);
      SmoothStep(Next(w), 4);
      LessKeeps(w, p, {command.id}, {});
      assert p.grants - {} == p.grants;
      p := p.(seen := p.seen + {command.id});
      ghost var p1 := p;
      result := Reply(Denied, Some(code));
      ActsTransitive(w, old(p), w, p1, journal.w, p, Nothing, Nothing);
      SeenStays(w, p1, journal.w, p);
      if result.Raised? {
        return;
      }
      ghost var (w2, p2) := (journal.w, p);
      var clock := Callback();
      ActsTransitive(w, old(p), w2, p2, journal.w, p, Nothing, Nothing);
      SeenStays(w2, p2, journal.w, p);
      w2, p2 := journal.w, p;
      var wrote := false;
      if clock.ok {
        wrote := Write(command, Finished(Denied));
        ActsTransitive(w, old(p), w2, p2, journal.w, p, Nothing, Nothing);
        SeenStays(w2, p2, journal.w, p);
        w2, p2 := journal.w, p;
      }
      if !wrote {
        result := Reply(Denied, Some(JournalUnavailable));
        ActsTransitive(w, old(p), w2, p2, journal.w, p, Nothing, Nothing);
        SeenStays(w2, p2, journal.w, p);
      }
    }

    /** Consumes a pending grant, whatever comes of it; only its own key, in time and approved, executes. */
    method Confirm(token: nat, listed: bool, key: Id, approved: bool, guarded: bool)
      returns (result: Result, ghost ran: Option<Run>)
      requires Valid()
      modifies this, journal
      ensures Valid() && Acts(old(journal.w), old(p), journal.w, p, Nothing)
      ensures |journal.w.answers| <= |old(journal.w.answers)|
      ensures token !in old(p.grants) ==> result.Raised? && ran.None? && p == old(p) && journal.w == old(journal.w)
      ensures token in old(p.grants) ==> token !in p.grants
      ensures ran.Some? ==>
                && token in old(p.grants) && listed && approved && key == old(p.grants)[token].key
                && ran.value.grant == Some(old(p.grants)[token]) && ran.value in journal.w.runs
                && ran.value.command == old(p.grants)[token].command && ran.value.version == old(p.version)
      ensures token in old(p.grants) ==>
                Receipt(old(p.grants)[token].command, result, ran, old(journal.w), journal.w)
      ensures token in old(p.grants) && old(Plenty(journal.w, guarded)) ==>
                && |old(journal.w.answers)| >= (if guarded then 17 else 14)
                && result == Redemption(old(journal.w), old(p), policy, profile, old(p.grants)[token], listed, key, approved, guarded)
      decreases |journal.w.answers|, 8
    {
      hide Sound, Acts, Refusal, Receipt, Taken, Plenty, Redemption;
      ran, result := None, Raised;
      ActsReflexive(journal.w, p, Nothing);
      if token !in p.grants {
        return;
      }
      var grant := p.grants[token];
      ghost var w0 := journal.w;
      TakeKeeps(w0, p, token);
      p := p.(users := p.users + 1, grants := p.grants - {token});
      ghost var p1 := p;
      RedemptionSame(w0, old(p), p1, policy, profile, grant, listed, key, approved, guarded);
      result, ran := Redeem(grant, listed, key, approved, guarded);
      TakeEnds(w0, old(p), p1, journal.w, p, token);
      p := p.(users := p.users - 1);
    }

    /** A grant in hand: its channel, key, time and guard are checked, and that it was confirmed is journaled. */
    method Vet(grant: Grant, listed: bool, key: Id, guarded: bool) returns (ok: bool, refusal: Option<Denial>, now: int)
      requires Valid()
      modifies this, journal
      ensures Valid() && Acts(old(journal.w), old(p), journal.w, p, Nothing)
      ensures |journal.w.answers| <= |old(journal.w.answers)|
      ensures ok && refusal.None? ==> listed && key == grant.key && now < grant.expires
      ensures old(Plenty(journal.w, guarded)) ==>
                && |old(journal.w.answers)| >= (if guarded then 17 else 14)
                && ok && refusal == Defect(old(journal.w), grant, listed, key, guarded) && p == old(p)
                && if refusal.Some? then Smooth(journal.w, 5) else journal.w == Recalled(old(journal.w), grant.command.id, guarded)
      decreases |journal.w.answers|, 3
    {
      hide Sound, Acts, Smooth, Plenty, Journaled, Written, Next;
      ok, refusal, now := true, None, 0;
      ghost var (w0, p0) := (journal.w, p);
      PlentySteps(w0, grant.command.id, guarded);
      ActsReflexive(w0, p0, Nothing);
      if !listed {
        refusal := Some(ConfirmationInvalid);
        return;
      }
      if key != grant.key {
        refusal := Some(ContextStale);
        return;
      }
      var clock := Callback();
      if !clock.ok {
        return false, None, 0;
      }
      now := clock.number;
      if now >= grant.expires {
        refusal := Some(ConfirmationExpired);
        return;
      }
      ghost var (w1, p1) := (journal.w, p);
      refusal := GuardDenial(guarded, grant.command.id);
      ActsTransitive(w0, p0, w1, p1, journal.w, p, Nothing, Nothing);
      SmoothLike(Next(w1), journal.w, 5);
      if refusal.None? {
        w1, p1 := journal.w, p;
        SmoothStep(w1, 5);
        var noted := Observe(grant.command, Confirmed);
        ActsTransitive(w0, p0, w1, p1, journal.w, p, Nothing, Nothing);
        refusal := if noted then None else Some(JournalUnavailable);
      }
    }

    /** A grant in hand: a sound confirmation stands for its command, any other spends it. */
    method Redeem(grant: Grant, listed: bool, key: Id, approved: bool, guarded: bool)
      returns (result: Result, ghost ran: Option<Run>)
      requires Valid() && p.users > 0 && Taken(journal.w, p, Some(grant))
      modifies this, journal
      ensures Valid() && Acts(old(journal.w), old(p), journal.w, p, Extra({grant.token}, {})) && p.users == old(p.users)
      ensures |journal.w.answers| <= |old(journal.w.answers)|
      ensures ran.Some? ==>
                && listed && approved && key == grant.key && ran.value.grant == Some(grant) && ran.value in journal.w.runs
                && ran.value.command == grant.command && ran.value.version == old(p.version)
      ensures Receipt(grant.command, result, ran, old(journal.w), journal.w)
      ensures old(Plenty(journal.w, guarded)) ==>
                && |old(journal.w.answers)| >= (if guarded then 17 else 14)
                && result == Redemption(old(journal.w), old(p), policy, profile, grant, listed, key, approved, guarded)
      decreases |journal.w.answers|, 7
    {
      hide Sound, Acts, Refusal, Taken, Smooth, Plenty, Due, Ample, Journaled, Recalled, Defect;
      ran, result := None, Raised;
      ghost var (w0, p0) := (journal.w, p);
      RecalledAmple(w0, grant.command.id, guarded);
      var ok, refusal, now := Vet(grant, listed, key, guarded);
      Redeeming(w0, p0, journal.w, p, grant);
      if !ok {
        return;
      }
      ghost var (w2, p2) := (journal.w, p);
      if refusal.Some? {
        result := Refuse(grant.command, refusal.value);
      } else {
        result, ran := Decide(grant.command, !approved, if approved then Some(grant) else None, now, key, guarded);
        ReceiptEarlier(w0, p0, w2, p2, journal.w, grant.command, result, ran, Extra({grant.token}, {}));
      }
      Redeemed(w0, p0, w2, p2, journal.w, p, grant.token);
    }

    /** Journals a preview and issues one grant for it, unless the command could not run even confirmed. */
    method RequestConfirmation(command: Command, key: Id) returns (grant: Option<Grant>)
      requires Valid()
      modifies this, journal
      ensures Valid() && Acts(old(journal.w), old(p), journal.w, p, Shown(Preview, command.id))
      ensures |journal.w.answers| <= |old(journal.w.answers)|
      ensures grant.Some? ==>
                && key != "" && Refusal(old(p), policy, profile, command, true).None?
                && grant.value.command == command && grant.value.key == key && old(journal.w.issued) <= grant.value.token
                && grant.value.token in p.grants && p.grants[grant.value.token] == grant.value
                && Journaled(journal.w.events, Preview, command.id)
                && grant.value.expires == First(old(journal.w)).number + 30000
      ensures old(Offerable(journal.w, p, policy, profile, command, key, 4)) ==>
                grant.Some? && journal.w == Requested(old(journal.w), command) && p == old(p).(grants := p.grants)
      decreases |journal.w.answers|, 8
    {
      hide Sound, Acts, Refusal, Requested;
      ActsReflexive(journal.w, p, Shown(Preview, command.id));
      if key == "" {
        return None;
      }
      UserKeeps(journal.w, p);
      p := p.(users := p.users + 1);
      RefusalUse(old(p), policy, profile, command, true);
      grant := Offer(command, key);
      UseKeeps(old(journal.w), old(p), journal.w, p, Shown(Preview, command.id));
      p := p.(users := p.users - 1);
    }

    /** Drops exactly the grants whose time is over. */
    method Expire(now: int)
      requires Valid()
      modifies this
      ensures Valid() && Acts(journal.w, old(p), journal.w, p, Nothing)
      ensures p == old(p).(grants := p.grants) && |p.grants| <= |old(p.grants)|
      ensures forall t :: t in p.grants <==> t in old(p.grants) && old(p.grants)[t].expires > now
    {
      hide Sound, Acts;
      var expired := set t | t in p.grants && p.grants[t].expires <= now;
      LessKeeps(journal.w, p, {}, expired);
      assert p.seen + {} == p.seen;
      Fewer((p.grants - expired).Keys, p.grants.Keys);
      p := p.(grants := p.grants - expired);
    }

    /** A new grant, unissued before, if the pending ones that are still in time leave room for it. */
    method Draft(command: Command, key: Id, now: int) returns (offer: Option<Grant>)
      requires Valid()
      modifies this, journal
      ensures Valid() && Acts(old(journal.w), old(p), journal.w, p, Nothing) && p == old(p).(grants := p.grants)
      ensures offer.None? ==> journal.w == old(journal.w) && |p.grants| >= PENDING_LIMIT
      ensures offer.Some? ==>
                && journal.w == old(journal.w).(issued := old(journal.w.issued) + 1) && |p.grants| < PENDING_LIMIT
                && offer.value == Grant(old(journal.w.issued), command, now + LIFETIME, key)
                && Taken(journal.w, p, offer)
      ensures |p.grants| <= |old(p.grants)|
    {
      hide Sound, Acts, Taken;
      ghost var (w0, p0) := (journal.w, p);
      Expire(now);
      if |p.grants| >= PENDING_LIMIT {
        return None;
      }
      offer := Some(Grant(journal.w.issued, command, now + LIFETIME, key));
      NoteKeeps(w0, p, w0.(issued := w0.issued + 1));
      Unissued(w0, p, offer.value);
      journal.w := journal.w.(issued := journal.w.issued + 1);
      ActsTransitive(w0, p0, w0, p, journal.w, p, Nothing, Nothing);
    }

    /** One grant more, once its preview is journaled. */
    method Offer(command: Command, key: Id) returns (grant: Option<Grant>)
      requires Valid() && p.users > 0
      modifies this, journal
      ensures Valid() && Acts(old(journal.w), old(p), journal.w, p, Shown(Preview, command.id)) && p.users == old(p.users)
      ensures |journal.w.answers| <= |old(journal.w.answers)|
      ensures grant.Some? ==>
                && Refusal(old(p), policy, profile, command, true).None?
                && grant.value.command == command && grant.value.key == key && old(journal.w.issued) <= grant.value.token
                && grant.value.token in p.grants && p.grants[grant.value.token] == grant.value
                && Journaled(journal.w.events, Preview, command.id)
                && grant.value.expires == First(old(journal.w)).number + 30000
      ensures old(Smooth(journal.w, 4)) && grant.Some? ==> |p.grants| <= 128
      ensures old(Smooth(journal.w, 4) && |p.grants| < PENDING_LIMIT) && Refusal(old(p), policy, profile, command, true).None? ==>
                grant.Some? && journal.w == Requested(old(journal.w), command) && p == old(p).(grants := p.grants)
      decreases |journal.w.answers|, 7
    {
      hide Sound, Acts, Refusal, Journaled, Smooth, Written, Next, Taken;
      ghost var (w0, p0, x) := (journal.w, p, Shown(Preview, command.id));
      ActsReflexive(w0, p0, x);
      SmoothOffer(w0);
      if Refusal(p, policy, profile, command, true).Some? {
        return None;
      }
      var clock := Callback();
      Widen(w0, p0, journal.w, p, x);
      ActsShape(w0, p0, journal.w, p, x);
      if !clock.ok {
        return None;
      }
      ghost var (w1, p1) := (journal.w, p);
      var offer := Draft(command, key, clock.number);
      ActsTransitive(w0, p0, w1, p1, journal.w, p, x, Nothing);
      if offer.None? {
        return None;
      }
      ghost var (w2, p2) := (journal.w, p);
      var noted := Observe(command, Preview);
      ActsTransitive(w0, p0, w2, p2, journal.w, p, x, x);
      ActsShape(w0, p0, journal.w, p, x);
      if noted {
        TakenOffer(w2, p2, journal.w, p, x, offer);
        Offered(w0, p0, w1, w2, p2, journal.w, p, offer.value, x);
        p := p.(grants := p.grants[offer.value.token := offer.value]);
        grant := offer;
      } else {
        grant := None;
      }
    }
  }

  /** A name for each number. */
  function Name(n: nat): (r: Id)
    ensures |r| == n
  {
    if n == 0 then "" else "i" + Name(n - 1)
  }

  function Plain(n: nat): Answer {
    Answer(true, [], 0, Name(n), None, false)
  }

  /** Answers that come and call nothing back, but for the second: it requests confirmation of the command. */
  function Meddling(c: Command): seq<Answer> {
    [Plain(0), Answer(true, [Requesting(c, "key")], 0, "", None, false)] + seq(7, i requires 0 <= i => Plain(i))
  }

  lemma MeddlingOvertakes(w: World, p: Plane, policy: Policy, profile: Profile, c: Command)
    requires w.events == [] && !w.closed && w.answers == Meddling(c) && p.seen == {} && p.grants == map[]
    requires Refusal(p, policy, profile, c, false).None?
    ensures Overtaking(w, p, policy, profile, c)
  {
    assert Refusal(p, policy, profile, c, true).None?;
    hide Refusal, Smooth;
    PlainSmooth(w, c);
  }

  lemma PlainSmooth(w: World, c: Command)
    requires w.events == [] && !w.closed && w.answers == Meddling(c)
    ensures Smooth(w.(answers := w.answers[2..]), 7)
  {
    assert forall i :: 0 <= i < 7 ==> w.answers[2..][i] == Plain(i) && |Plain(i).name| == i;
  }

  /**
   The failing input: a fresh system, any command that it would execute, and a clock that requests confirmation of
   the command it is asked the time for. Dispatch executes the command, unconfirmed, after its preview.
   */
  method Overtaken(entries: seq<Capability>, policy: Policy, profile: Profile, command: Command)
    returns (journal: Journal, run: Run)
    requires Coherent(entries)
    requires Refusal(Plane(Catalog(entries), 1, 0, {}, map[]), policy, profile, command, false).None?
    ensures run in journal.w.runs && run.command == command && run.grant.None? && run.read == 0
    ensures run.done <= |journal.w.events| && Previewed(journal.w.events[..run.done], command.id)
  {
    hide Overtaking, Previewed, Meddling, Refusal;
    journal := new Journal(Meddling(command));
    var plane := new ControlPlane(entries, policy, profile, journal);
    RefusalSame(Plane(Catalog(entries), 1, 0, {}, map[]), plane.p, policy, profile, command);
    MeddlingOvertakes(journal.w, plane.p, policy, profile, command);
    ghost var ran;
    var result;
    result, ran := plane.Dispatch(command, false, false);
    assert ran.value in journal.w.runs;
    run :| run in journal.w.runs && run.command == command && run.grant.None? && run.read == 0
           && run.done <= |journal.w.events| && Previewed(journal.w.events[..run.done], command.id);
  }

  lemma RefusalSame(p: Plane, p': Plane, policy: Policy, profile: Profile, c: Command)
    requires p.catalog == p'.catalog
    ensures Refusal(p, policy, profile, c, false) == Refusal(p', policy, profile, c, false)
  {
  }

  /** Any number of operations by any number of planes on one journal; a restart is a new plane. */
  method AnyRun(journal: Journal, start: set<ControlPlane>, steps: nat) returns (planes: set<ControlPlane>)
    requires Recorded(journal.w) && Apart(start, journal)
    modifies journal, start
    ensures Recorded(journal.w) && Apart(planes, journal) && start <= planes
    ensures old(journal.w.events) <= journal.w.events && old(journal.w.runs) <= journal.w.runs
  {
    hide Recorded, Kept, Acts, Next, Coherent;
    planes := start;
    for i := 0 to steps
      invariant Recorded(journal.w) && Apart(planes, journal) && start <= planes && fresh(planes - start)
      invariant old(journal.w.events) <= journal.w.events && old(journal.w.runs) <= journal.w.runs
    {
      if * {
        var plane := Restart(journal);
        planes := planes + {plane};
      } else if planes != {} {
        var plane :| plane in planes;
        // Whatever the outside world will say and do from here on.
        var answers: seq<Answer> := Oracle();
        Rescripted(journal.w, answers);
        journal.w := journal.w.(answers := answers);
        ghost var (w, p) := (journal.w, plane.p);
        var op: Operation := Oracle();
        plane.Operate(op);
        forall q | q in planes && q != plane ensures Kept(journal.w, q.p) && q.p.grants.Keys !! plane.p.grants.Keys {
          OthersKeep(w, p, journal.w, plane.p, q.p, Own(op));
        }
        ActsRuns(w, p, journal.w, plane.p, Own(op));
      }
    }
  }

  /** A new plane with any catalog, policy and profile. */
  method Restart(journal: Journal) returns (plane: ControlPlane)
    requires Recorded(journal.w)
    ensures fresh(plane) && plane.journal == journal && Kept(journal.w, plane.p) && plane.p.grants == map[]
  {
    hide Recorded, Catalog;
    var policy: Policy := Oracle();
    var profile: Profile := Oracle();
    var entries: seq<Capability> := Oracle();
    plane := new ControlPlane(if Coherent(entries) then entries else [], policy, profile, journal);
  }

  /** The planes share the journal and hold no grant in common. */
  ghost predicate Apart(planes: set<ControlPlane>, journal: Journal)
    reads planes, journal
  {
    && (forall q :: q in planes ==> q.journal == journal && Kept(journal.w, q.p))
    && (forall q, r :: q in planes && r in planes && q != r ==> q.p.grants.Keys !! r.p.grants.Keys)
  }

  lemma OthersKeep(w: World, p: Plane, w': World, p': Plane, q: Plane, extra: Extra)
    requires Acts(w, p, w', p', extra) && extra.tokens == {} && Kept(w, q) && q.grants.Keys !! p.grants.Keys
    ensures Kept(w', q) && q.grants.Keys !! p'.grants.Keys
  {
    hide Tells;
  }

  lemma ActsRuns(w: World, p: Plane, w': World, p': Plane, extra: Extra)
    requires Acts(w, p, w', p', extra)
    ensures w.events <= w'.events && w.runs <= w'.runs
  {
  }

  lemma Rescripted(w: World, answers: seq<Answer>)
    ensures Recorded(w) ==> Recorded(w.(answers := answers))
    ensures forall q :: Kept(w, q) ==> Kept(w.(answers := answers), q)
  {
    hide Intended, Previewed;
    forall i | 0 <= i < |w.runs| && Sanctioned(w.runs[i], w)
      ensures Sanctioned(w.runs[i], w.(answers := answers))
    {
    }
  }
}

/**
 Generation leases on one shared owner, and the conversation that holds them.
 Other clients use the owner between any two of its atomic operations; other
 threads and callbacks may cancel the conversation between any two of its own.
 */
module Conversation {
  import opened Wrappers

  // The shared owner.

  datatype Phase = Idle | Owned | Canceling | Faulted

  /** An accepted cleanup report. */
  datatype Report = Report(generation: nat, cleaned: bool)

  /** The owner, with the generations it ever gave to the conversation and every report it ever accepted. */
  datatype Owner = Owner(generation: nat, holder: Option<nat>, phase: Phase, given: seq<nat>, reports: seq<Report>)

  /** The reports on one generation, in order. */
  function Filed(reports: seq<Report>, generation: nat): seq<bool> {
    if reports == [] then []
    else
      var last := reports[|reports| - 1];
      Filed(reports[..|reports| - 1], generation) + if last.generation == generation then [last.cleaned] else []
  }

  lemma FiledMore(reports: seq<Report>, r: Report, generation: nat)
    ensures Filed(reports + [r], generation)
         == Filed(reports, generation) + if r.generation == generation then [r.cleaned] else []
  {
    assert (reports + [r])[..|reports|] == reports;
  }

  lemma {:induction false} FiledNever(reports: seq<Report>, generation: nat)
    requires forall r <- reports :: r.generation != generation
    ensures Filed(reports, generation) == []
  {
    if reports != [] {
      FiledNever(reports[..|reports| - 1], generation);
    }
  }

  predicate Consistent(o: Owner) {
    && (o.holder.Some? ==> 0 < o.holder.value <= o.generation)
    && (o.phase == Idle <==> o.holder.None?)
    && (forall g <- o.given :: g <= o.generation) && (forall r <- o.reports :: r.generation <= o.generation)
  }

  /** Nothing was given to the conversation, nothing filed on its generations, and nobody holds one but by `ours`. */
  predicate Spared(o: Owner, o': Owner, ours: Option<nat>) {
    && o'.given == o.given && (forall g <- o.given :: Filed(o'.reports, g) == Filed(o.reports, g))
    && Unheld(o', ours)
  }

  predicate Unheld(o: Owner, ours: Option<nat>) {
    o.phase != Faulted && o.holder.Some? && o.holder.value in o.given ==> o.holder == ours
  }

  predicate Accepts(o: Owner, generation: nat) {
    o.phase == Owned && o.holder == Some(generation)
  }

  /** Generations only grow, a lease once refused stays refused, and a fault stays. */
  predicate Follows(o: Owner, o': Owner) {
    && o.generation <= o'.generation
    && (forall g :: 0 < g <= o.generation && !Accepts(o, g) ==> !Accepts(o', g))
    && (o.phase == Faulted ==> o'.phase == Faulted)
  }

  /** The owner after a report that counts. */
  function Settled(o: Owner, generation: nat, cleaned: bool): Owner {
    var filed := o.reports + [Report(generation, cleaned)];
    if cleaned then o.(holder := None, phase := Idle, reports := filed) else o.(phase := Faulted, reports := filed)
  }

  lemma FollowsTransitive(o: Owner, o1: Owner, o2: Owner)
    requires Follows(o, o1) && Follows(o1, o2)
    ensures Follows(o, o2)
  {
  }

  lemma FollowsLater(o: Owner, o': Owner)
    requires Follows(o, o')
    ensures o.generation <= o'.generation
  {
  }

  class SessionOwner {
    var o: Owner

    constructor ()
      ensures o == Owner(0, None, Idle, [], [])
    {
      o := Owner(0, None, Idle, [], []);
    }

    /** Admits one holder at a time, under a generation never given before; never after a fault. */
    method Begin(ours: bool) returns (lease: Option<nat>)
      requires Consistent(o)
      modifies this
      ensures Consistent(o) && Follows(old(o), o)
      ensures lease.Some? <==> old(o.phase) == Idle
      ensures lease.None? ==> o == old(o)
      ensures lease.Some? ==> lease.value > old(o.generation) && Accepts(o, lease.value) && o.generation == lease.value
      ensures lease.Some? ==>
                o.given == old(o.given) + (if ours then [lease.value] else []) && o.reports == old(o.reports)
    {
      if o.phase != Idle {
        return None;
      }
      var next := o.generation + 1;
      o := Owner(next, Some(next), Owned, if ours then o.given + [next] else o.given, o.reports);
      return o.holder;
    }

    /** Invalidates whoever holds the owner, or only the named holder; it never frees anything. */
    method Cancel(generation: Option<nat>)
      requires Consistent(o)
      modifies this
      ensures Consistent(o) && Follows(old(o), o) && o.holder == old(o.holder)
      ensures generation.Some? && generation != old(o.holder) ==> o == old(o)
      ensures generation.None? || generation == old(o.holder) ==>
                o == old(o).(generation := old(o.generation) + 1,
                             phase := if old(o.phase) == Owned then Canceling else old(o.phase))
    {
      if generation.Some? && generation != o.holder {
        return;
      }
      o := o.(generation := o.generation + 1, phase := if o.phase == Owned then Canceling else o.phase);
    }

    /** The holder's cleanup report: a proven one frees the owner, an unproven one latches a fault. */
    method Release(generation: nat, cleaned: bool) returns (ok: bool)
      requires Consistent(o)
      modifies this
      ensures Consistent(o) && Follows(old(o), o)
      ensures ok <==> old(o.phase) != Faulted && old(o.holder) == Some(generation)
      ensures !ok ==> o == old(o)
      ensures ok ==> o == Settled(old(o), generation, cleaned)
    {
      if o.phase == Faulted || o.holder != Some(generation) {
        return false;
      }
      o := Settled(o, generation, cleaned);
      return true;
    }

    /** Other clients, any number of times; they release only generations that are not `ours`. */
    method Others(ours: Option<nat>)
      requires Consistent(o) && Unheld(o, ours)
      modifies this
      ensures Consistent(o) && Follows(old(o), o) && Spared(old(o), o, ours)
      ensures ours.Some? && old(o.holder) == ours ==>
                o.holder == ours && (o.phase == old(o.phase) || (old(o.phase) == Owned && o.phase == Canceling))
    {
      hide Follows;
      Still(o);
      var calls: nat := Oracle();
      for i := 0 to calls
        invariant Consistent(o) && Follows(old(o), o) && Spared(old(o), o, ours)
        invariant ours.Some? && old(o.holder) == ours ==>
                    o.holder == ours && (o.phase == old(o.phase) || (old(o.phase) == Owned && o.phase == Canceling))
      {
        ghost var before := o;
        Other(ours);
        FollowsTransitive(old(o), before, o);
      }
    }

    method Other(ours: Option<nat>)
      requires Consistent(o) && Unheld(o, ours)
      modifies this
      ensures Consistent(o) && Follows(old(o), o) && Spared(old(o), o, ours)
      ensures ours.Some? && old(o.holder) == ours ==>
                o.holder == ours && (o.phase == old(o.phase) || (old(o.phase) == Owned && o.phase == Canceling))
    {
      var generation: nat := Oracle();
      if * {
        var _ := Begin(false);
      } else if * {
        Cancel(Some(generation));
      } else if * {
        Cancel(None);
      } else if Some(generation) != ours {
        var cleaned: bool := Oracle();
        var ok := Release(generation, cleaned);
        if ok {
          ForeignReport(old(o), generation, cleaned, ours);
        }
      }
    }
  }

  /** A report on a generation that another client holds says nothing about the conversation's. */
  lemma ForeignReport(o: Owner, generation: nat, cleaned: bool, ours: Option<nat>)
    requires Consistent(o) && Unheld(o, ours) && Some(generation) != ours
    requires o.phase != Faulted && o.holder == Some(generation)
    ensures Spared(o, Settled(o, generation, cleaned), ours)
  {
    forall g <- o.given
      ensures Filed(Settled(o, generation, cleaned).reports, g) == Filed(o.reports, g)
    {
      FiledMore(o.reports, Report(generation, cleaned), g);
    }
  }

  // The conversation.

  datatype Display = Inactive | Ready | Processing | Clarifying | Stopping | Broken

  datatype Code =
    | Quiet | Prompt | Busying | Conflict | CanceledTurn | Ended | Handoff | Stale | Limit | DeniedEntry
    | Unavailable | InvalidResult | CleanupUnproven | Occupied

  datatype Limits = Limits(turns: nat, text: nat, context: nat, items: nat, polls: nat)

  datatype Context = Context(revision: nat, items: seq<string>, conflict: Option<nat>, available: bool)

  /** What the snapshot source shows: the policy's limits and words, and the current context. */
  datatype Snapshot = Snapshot(
    revision: nat, permitted: bool, entries: set<nat>, exitPhrase: string, exitKey: string, limits: Limits, context: Context)

  datatype Token = Token(turn: nat, lease: nat, revision: nat)

  datatype Request = Request(token: Token, text: string, resolved: bool)

  datatype Exchange = Exchange(token: Token, text: string, response: string)

  datatype Response = Response(token: Token, text: string)

  datatype State = State(
    lease: Option<nat>, intent: Option<Code>, snapshot: Option<Snapshot>, request: Option<Request>, job: bool,
    unknownJob: bool, history: seq<Exchange>, turn: nat, polls: nat, display: Display, code: Code, busy: bool)

  /** What is outside during an operation: anything at all, or nobody who interferes, with these answers. */
  datatype World =
    | Stormy
    | Calm(shown: Option<Snapshot>, created: bool, started: bool, proves: bool, answered: bool, reply: Option<Response>)

  /** One lease: the jobs created under it, those that proved cleanup, and its release reports. */
  datatype Tenure = Tenure(generation: nat, jobs: nat, proven: nat, releases: seq<bool>)

  function Total(texts: seq<string>): nat {
    if texts == [] then 0 else Total(texts[..|texts| - 1]) + |texts[|texts| - 1]|
  }

  function Exchanged(history: seq<Exchange>): nat {
    if history == [] then 0
    else Exchanged(history[..|history| - 1]) + |history[|history| - 1].text| + |history[|history| - 1].response|
  }

  function ContextSize(s: State): nat
    requires s.snapshot.Some?
  {
    Total(s.snapshot.value.context.items) + Exchanged(s.history)
  }

  /** Turns strictly increase and stay at or below `bound`. */
  predicate Increasing(history: seq<Exchange>, bound: nat) {
    history == [] ||
    (history[|history| - 1].token.turn <= bound && 0 < history[|history| - 1].token.turn
     && Increasing(history[..|history| - 1], history[|history| - 1].token.turn - 1))
  }

  /** A tenure that is over was reported exactly once, as clean only if every job proved cleanup. */
  predicate Reported(t: Tenure) {
    |t.releases| == 1 && t.proven <= t.jobs && (t.releases[0] ==> t.proven == t.jobs)
  }

  /** The current tenure: unreported, with exactly the held or unknown job unproven. */
  predicate Current(s: State, t: Tenure) {
    && s.lease == Some(t.generation) && t.releases == []
    && t.jobs == t.proven + (if s.job || s.unknownJob then 1 else 0)
  }

  /** Context and history fit, and turns increase up to the pending one. */
  predicate Bounded(s: State) {
    && (s.snapshot.None? ==> s.history == [])
    && (s.snapshot.Some? ==> ContextSize(s) <= s.snapshot.value.limits.context)
    && (if s.request.Some? then s.request.value.token.turn == s.turn > 0 && Increasing(s.history, s.turn - 1)
        else Increasing(s.history, s.turn))
  }

  /** Tenures are over, in order of their generations; one bad report and the owner is faulted. */
  predicate Ledger(past: seq<Tenure>, o: Owner) {
    && (forall i :: 0 <= i < |past| ==> Reported(past[i]) && past[i].generation <= o.generation)
    && (forall i, j :: 0 <= i < j < |past| ==> past[i].generation < past[j].generation)
    && (forall i :: 0 <= i < |past| && !past[i].releases[0] ==> o.phase == Faulted)
  }

  /** Every generation given is a tenure that is over, with just its own reports on file, or the current lease. */
  predicate Accounted(lease: Option<nat>, o: Owner, past: seq<Tenure>) {
    && |o.given| == |past| + (if lease.Some? then 1 else 0)
    && (forall i :: 0 <= i < |past| ==> o.given[i] == past[i].generation && Filed(o.reports, o.given[i]) == past[i].releases)
    && (lease.Some? ==> o.given[|past|] == lease.value && Filed(o.reports, lease.value) == [])
    && Unheld(o, lease)
  }

  /** What holds at every instant, callbacks and interference included. */
  predicate Steady(s: State, o: Owner, past: seq<Tenure>, current: Tenure) {
    && Consistent(o) && Ledger(past, o) && Bounded(s) && Accounted(s.lease, o, past)
    && (s.lease.Some? ==>
          && Current(s, current) && s.snapshot.Some? && o.holder == s.lease && o.phase in {Owned, Canceling}
          && forall i :: 0 <= i < |past| ==> past[i].generation < s.lease.value)
    && (s.lease.None? ==> !s.job)
  }

  /** What holds between operations. */
  predicate Rested(s: State) {
    && !s.busy
    && match s.display
       case Inactive => s.lease.None? && !s.job && !s.unknownJob && s.request.None?
       case Ready => s.lease.Some? && !s.job && !s.unknownJob && s.request.None?
       case Processing => s.lease.Some? && s.job && !s.unknownJob && s.request.Some?
       case Clarifying => s.lease.Some? && !s.job && !s.unknownJob && s.request.Some?
       case Stopping => false
       case Broken => s.lease.None?
  }

  /** A cancelled turn gives way to any other reason to stop; ending and handing off override all. */
  function Asked(intent: Option<Code>, code: Code): Option<Code> {
    match intent
    case None => Some(code)
    case Some(CanceledTurn) => Some(code)
    case Some(_) => if code.Ended? || code.Handoff? then Some(code) else intent
  }

  lemma AskedMeans(intent: Option<Code>, code: Code)
    ensures Asked(intent, code).Some?
    ensures intent.Some? && intent != Some(CanceledTurn) ==> Asked(intent, code) != Some(CanceledTurn)
  {
  }

  /** Why work may not go on, given the latest snapshot. */
  function Obstacle(seen: Option<Snapshot>, s: State, o: Owner): Option<Code> {
    if seen.None? then Some(Unavailable)
    else if s.intent.Some? then s.intent
    else if seen != s.snapshot || s.lease.None? || !Accepts(o, s.lease.value) then Some(Stale)
    else None
  }

  /** The intent is the same, or one that other threads may have. */
  predicate Unintended(intent: Option<Code>, intent': Option<Code>) {
    intent' == intent || intent' in {Some(CanceledTurn), Some(Ended), Some(Handoff)}
  }

  /** What is shown of work that ended in a calm. */
  function Ending(s: State, world: World): (Display, Code)
    requires world.Calm? && s.intent.Some?
  {
    if s.unknownJob || (s.job && !world.proves) then (Broken, CleanupUnproven)
    else if s.intent != Some(CanceledTurn) then (Inactive, s.intent.value)
    else if s.snapshot.Some? && world.shown.None? then (Inactive, Unavailable)
    else if s.snapshot.Some? && world.shown != s.snapshot then (Inactive, Stale)
    else (if s.lease.Some? then Ready else Inactive, CanceledTurn)
  }

  /** What a line of input comes to in a calm. */
  function Submission(s: State, o: Owner, world: World, text: string): Signal
    requires world.Calm? && (s.lease.Some? ==> s.snapshot.Some?)
  {
    var obstacle := Obstacle(world.shown, s, o);
    if s.display in {Inactive, Stopping, Broken} then Rejected
    else if obstacle.Some? then Halt(obstacle.value)
    else
      var limits := s.snapshot.value.limits;
      if |text| > limits.text then Rejected
      else if text == s.snapshot.value.exitPhrase then Halt(Ended)
      else if s.display != Ready then Rejected
      else if !(s.turn < limits.turns && ContextSize(s) + |text| <= limits.context) then Halt(Limit)
      else if s.snapshot.value.context.conflict.Some? || (world.created && world.started) then Done
      else Halt(Unavailable)
  }

  /** What an answer to the question about a conflict comes to in a calm. */
  function Clarification(s: State, o: Owner, world: World, token: Token, conflict: nat, useCurrent: bool): Signal
    requires world.Calm? && (s.lease.Some? ==> s.snapshot.Some?)
  {
    var obstacle := Obstacle(world.shown, s, o);
    if s.display != Clarifying then Rejected
    else if obstacle.Some? then Halt(obstacle.value)
    else if s.request.None? || s.request.value.token != token || s.snapshot.value.context.conflict != Some(conflict) then Rejected
    else if !useCurrent || (world.created && world.started) then Done
    else Halt(Unavailable)
  }

  /** What the answer of a job comes to in a calm. */
  function Reception(s: State, o: Owner, world: World, response: Option<Response>): Signal
    requires world.Calm? && s.snapshot.Some? && s.request.Some?
  {
    var (limits, request, obstacle) := (s.snapshot.value.limits, s.request.value, Obstacle(world.shown, s, o));
    match response
    case None => if s.polls < limits.polls then Done else Halt(Limit)
    case Some(r) =>
      if r.token != request.token then Halt(InvalidResult)
      else if !(|r.text| <= limits.text && ContextSize(s) + |request.text| + |r.text| <= limits.context) then Halt(Limit)
      else if s.unknownJob || (s.job && !world.proves) then Halt(CleanupUnproven)
      else if obstacle.Some? then Halt(obstacle.value)
      else Done
  }

  /** What a poll comes to in a calm. */
  function Polled(s: State, o: Owner, world: World): Signal
    requires world.Calm? && (s.lease.Some? ==> s.snapshot.Some?) && (s.display == Processing ==> s.request.Some?)
  {
    var obstacle := Obstacle(world.shown, s, o);
    if s.display in {Inactive, Stopping, Broken} then Done
    else if obstacle.Some? then Halt(obstacle.value)
    else if s.display != Processing then Done
    else if !world.answered then Halt(Unavailable)
    else Reception(s.(polls := s.polls + 1), o, world, world.reply)
  }

  /** What an attempt to open a conversation comes to in a calm. */
  function Entrance(s: State, o: Owner, world: World, channel: nat): Signal
    requires world.Calm?
  {
    if s.display != Inactive then Rejected
    else if world.shown.None? then Halt(Unavailable)
    else if Ineligible(world.shown.value, channel).Some? then Halt(Ineligible(world.shown.value, channel).value)
    else if s.intent.Some? then Halt(s.intent.value)
    else if o.phase != Idle then Rejected
    else Done
  }

  /** The owner moved on without touching the conversation's lease. */
  lemma OwnerKeeps(s: State, o: Owner, o': Owner, past: seq<Tenure>, current: Tenure, intent: Option<Code>)
    requires Steady(s, o, past, current) && Consistent(o') && Follows(o, o') && Spared(o, o', s.lease)
    requires s.lease.Some? ==> o'.holder == s.lease && o'.phase in {Owned, Canceling}
    ensures Steady(s.(intent := intent), o', past, current)
  {
  }

  class Conversation {
    const owner: SessionOwner
    var s: State
    var world: World
    ghost var past: seq<Tenure>
    ghost var current: Tenure

    ghost predicate Alive()
      reads this, owner
    {
      Steady(s, owner.o, past, current)
    }

    ghost predicate Valid()
      reads this, owner
    {
      Alive() && Rested(s)
    }

    constructor (owner: SessionOwner)
      requires Consistent(owner.o) && owner.o.given == []
      ensures Valid() && past == [] && this.owner == owner && s.display == Inactive
    {
      this.owner := owner;
      s := State(None, None, None, None, false, false, [], 0, 0, Inactive, Quiet, false);
      world := Stormy;
      past, current := [], Tenure(0, 0, 0, []);
    }

    /** Only the intent to stop moved, and it never goes away by itself. */
    twostate predicate Intruded()
      reads this, owner
    {
      && s == old(s).(intent := s.intent) && (old(s.intent.Some?) ==> s.intent.Some?)
      && (old(s.intent.Some?) && old(s.intent) != Some(CanceledTurn) ==> s.intent != Some(CanceledTurn))
      && past == old(past) && current == old(current) && Follows(old(owner.o), owner.o)
    }

    /** Nothing happens in a calm; otherwise only a cancelling, an ending or a handoff is asked for. */
    twostate predicate Unforced()
      reads this, owner
    {
      && Unintended(old(s.intent), s.intent)
      && (world.Calm? ==> s == old(s) && owner.o == old(owner.o))
    }

    /** The reason to stop that stands after one more is given. */
    method Override(code: Code) returns (intent: Option<Code>)
      ensures intent == Asked(s.intent, code)
    {
      if s.intent.None? || s.intent == Some(CanceledTurn) || code == Ended || code == Handoff {
        return Some(code);
      }
      return s.intent;
    }

    /** Logical cancellation: recorded once, and the lease is no longer accepted. */
    method Invalidate(code: Code)
      requires Alive()
      modifies this`s, owner
      ensures Alive() && Intruded() && s.intent.Some?
      ensures s.intent == Asked(old(s.intent), code)
      ensures s.lease.Some? ==> !Accepts(owner.o, s.lease.value)
    {
      hide Steady, Follows, Asked;
      ghost var o := owner.o;
      OwnerShape(s, o, past, current);
      var intent := Override(code);
      AskedMeans(s.intent, code);
      s := s.(intent := intent);
      if s.lease.Some? {
        owner.Cancel(s.lease);
      } else {
        Still(o);
      }
      OwnerKeeps(old(s), o, owner.o, past, current, s.intent);
    }

    /** Between two of the conversation's steps: other clients, and cancellation from anywhere. */
    method Interfere()
      requires Alive()
      modifies this`s, owner
      ensures Alive() && Intruded() && (Rested(old(s)) ==> Rested(s)) && Unforced()
    {
      hide Steady, Follows;
      ghost var o := owner.o;
      Still(o);
      if world.Calm? {
        return;
      }
      OwnerShape(s, o, past, current);
      owner.Others(s.lease);
      OwnerKeeps(s, o, owner.o, past, current, s.intent);
      var code: Code := Oracle();
      if code in {CanceledTurn, Ended, Handoff} && (s.lease.Some? || s.busy) {
        ghost var o1 := owner.o;
        Invalidate(code);
        FollowsTransitive(o, o1, owner.o);
      }
    }

    /** One look at the snapshot source, which may also fail. */
    method Sample() returns (snapshot: Option<Snapshot>)
      requires Alive()
      modifies this`s, owner
      ensures Alive() && Intruded() && Unforced() && (world.Calm? ==> snapshot == world.shown)
    {
      Interfere();
      snapshot := Oracle();
      if world.Calm? {
        snapshot := world.shown;
      }
    }

    /** A yes or no from outside: the given one in a calm. */
    method Told(calm: bool) returns (yes: bool)
      ensures world.Calm? ==> yes == calm
    {
      yes := Oracle();
      if world.Calm? {
        yes := calm;
      }
    }

    /** Work goes on only uncancelled, on the same snapshot, with an accepted lease. */
    method Check() returns (stop: Option<Code>, ghost seen: Option<Snapshot>)
      requires Alive()
      modifies this`s, owner
      ensures Alive() && Intruded() && Unforced() && (world.Calm? ==> seen == world.shown)
      ensures stop == Obstacle(seen, s, owner.o)
      ensures stop.None? ==> seen == s.snapshot && s.intent.None? && s.lease.Some? && s.snapshot.Some? && Accepts(owner.o, s.lease.value)
    {
      hide Steady, Follows;
      var now := Sample();
      seen := now;
      if now.None? {
        return Some(Unavailable), seen;
      }
      if s.intent.Some? {
        return s.intent, seen;
      }
      ghost var o := owner.o;
      OwnerShape(s, o, past, current);
      Still(o);
      if world.Stormy? {
        owner.Others(s.lease);
        OwnerKeeps(s, o, owner.o, past, current, s.intent);
      }
      FollowsTransitive(old(owner.o), o, owner.o);
      if now != s.snapshot || s.lease.None? || !Accepts(owner.o, s.lease.value) {
        return Some(Stale), seen;
      }
      return None, seen;
    }

    /** Cancels the job, if one is held; only a proof makes it clean, and a doubt is never forgotten. */
    method Cleanup() returns (clean: bool)
      requires Alive()
      modifies this`s, this`past, this`current, owner
      ensures Alive() && past == old(past) && Follows(old(owner.o), owner.o)
      ensures s == old(s).(intent := s.intent, job := false, unknownJob := !clean)
      ensures old(s.intent.Some?) ==> s.intent.Some?
      ensures old(s.intent.Some?) && old(s.intent) != Some(CanceledTurn) ==> s.intent != Some(CanceledTurn)
      ensures old(s.unknownJob) ==> !clean
      ensures clean ==> s.lease.Some? ==> current.jobs == current.proven
      ensures current.generation == old(current.generation) && current.jobs == old(current.jobs)
      ensures Unintended(old(s.intent), s.intent)
      ensures world.Calm? ==>
                && clean == (!old(s.unknownJob) && (old(s.job) ==> world.proves))
                && s.intent == old(s.intent) && owner.o == old(owner.o)
    {
      hide Follows;
      clean := !s.unknownJob;
      if s.job {
        Interfere();
        var proven := Told(if world.Calm? then world.proves else false);
        clean := proven && clean;
      } else {
        Still(owner.o);
      }
      if s.job && clean {
        current := current.(proven := current.proven + 1);
      }
      s := s.(job := false, unknownJob := !clean);
    }

    /** Ends the current work: cleanup, one report of the lease, and a new lease only after a clean cancel. */
    method Stop() returns (ghost seen: Option<Snapshot>)
      requires Alive() && s.intent.Some? && s.busy
      modifies this`s, this`past, this`current, owner
      ensures Alive() && Rested(s.(busy := false)) && s.busy && Follows(old(owner.o), owner.o)
      ensures old(s.lease.None?) ==> past == old(past) && s.lease.None?
      ensures old(s.lease.Some?) ==>
                && |past| == |old(past)| + 1 && past[..|old(past)|] == old(past)
                && past[|old(past)|].generation == old(s.lease.value) && s.lease != old(s.lease)
      ensures s.history == old(s.history) || s.history == []
      ensures s.display == Ready ==> old(s.lease.Some?) && past[|past| - 1].releases == [true] && seen == s.snapshot
      ensures world.Calm? ==> (s.display, s.code) == Ending(old(s), world)
      ensures s.display == Ready ==> s.history == old(s.history)
    {
      hide Follows, Bounded, Ledger, Accounted;
      s := s.(display := Stopping);
      Restated(old(s), s, owner.o, past, current);
      var clean := Cleanup();
      ghost var o1 := owner.o;
      seen := Reconsider(clean);
      FollowsTransitive(old(owner.o), o1, owner.o);
      o1 := owner.o;
      Conclude(clean);
      FollowsTransitive(old(owner.o), o1, owner.o);
    }

    /** A cancelled turn is the end of the conversation if the snapshot is no longer what it was. */
    method Reconsider(clean: bool) returns (ghost seen: Option<Snapshot>)
      requires Alive() && s.intent.Some?
      modifies this`s, owner
      ensures Alive() && Intruded() && s.intent.Some?
      ensures clean && s.intent == Some(CanceledTurn) && s.snapshot.Some? ==> seen == s.snapshot
      ensures world.Calm? ==>
                s.intent == if !(clean && old(s.intent) == Some(CanceledTurn) && s.snapshot.Some?) then old(s.intent)
                            else if world.shown.None? then Some(Unavailable)
                            else if world.shown != s.snapshot then Some(Stale)
                            else old(s.intent)
    {
      hide Follows, Steady;
      ghost var o := owner.o;
      Still(o);
      seen := None;
      if clean && s.intent == Some(CanceledTurn) && s.snapshot.Some? {
        var now := Sample();
        seen := now;
        if now != s.snapshot {
          ghost var o1 := owner.o;
          Invalidate(if now.None? then Unavailable else Stale);
          FollowsTransitive(o, o1, owner.o);
        }
      }
      ghost var o2 := owner.o;
      Interfere();
      FollowsTransitive(o, o2, owner.o);
    }

    /** The gate: the report, and the attempt to go on with a fresh lease. */
    method Conclude(clean: bool)
      requires Alive() && s.intent.Some? && s.busy && !s.job && s.unknownJob == !clean
      modifies this`s, this`past, this`current, owner
      ensures Alive() && Rested(s.(busy := false)) && s.busy && Follows(old(owner.o), owner.o)
      ensures old(s.lease.None?) ==> past == old(past) && s.lease.None?
      ensures old(s.lease.Some?) ==>
                && past == old(past) + [old(current).(releases := [clean])] && s.lease != old(s.lease)
      ensures s.history == old(s.history) || s.history == []
      ensures s.display == Broken <==> !clean
      ensures s.intent.None? && s.request.None? && (!clean ==> s.code == CleanupUnproven)
      ensures clean && !(old(s.intent) == Some(CanceledTurn) && old(s.lease.Some?)) ==>
                s.display == Inactive && Some(s.code) == old(s.intent)
      ensures clean && old(s.intent) == Some(CanceledTurn) && old(s.lease.Some?) ==>
                || (s.display == Ready && s.code == CanceledTurn && s.history == old(s.history) && s.snapshot == old(s.snapshot))
                || (s.display == Inactive && s.code == Occupied && world.Stormy?)
      ensures s.display != Ready ==> s.history == [] && s.snapshot.None?
    {
      hide Follows, Bounded, Ledger, Accounted;
      ghost var o := owner.o;
      var (code, lease) := (s.intent.value, s.lease);
      if lease.Some? {
        OwnerShape(s, o, past, current);
        var _ := owner.Release(lease.value, clean);
        ReleaseKeeps(s, o, owner.o, past, current, clean);
        past := past + [current.(releases := [clean])];
      } else {
        Unrequest(s, o, past, current);
        Still(o);
      }
      s := s.(request := None, lease := None);
      ghost var o1 := owner.o;
      var display := if clean then Inactive else Broken;
      code := if clean then code else CleanupUnproven;
      if code == CanceledTurn && lease.Some? {
        var renewed := Renew();
        FollowsTransitive(o, o1, owner.o);
        display, code := if renewed then Ready else display, if renewed then code else Occupied;
      }
      ghost var s1 := s;
      s := s.(display := display, code := code, intent := None);
      Restated(s1, s, owner.o, past, current);
      if display != Ready {
        Cleared(s, owner.o, past, current);
        s := s.(history := [], snapshot := None);
      }
    }

    /** A new lease after a clean cancel; other clients can win this gap, and are never taken over. */
    method Renew() returns (ok: bool)
      requires Alive() && s.lease.None? && s.snapshot.Some? && !s.unknownJob
      modifies this`s, this`past, this`current, owner
      ensures Alive() && past == old(past) && Follows(old(owner.o), owner.o)
      ensures s == old(s).(lease := s.lease) && ok == s.lease.Some?
      ensures ok ==> s.lease.value > old(owner.o.generation)
      ensures world.Calm? && old(owner.o.phase) == Idle ==> ok
    {
      hide Follows, Steady;
      ghost var o := owner.o;
      OwnerShape(s, o, past, current);
      Still(o);
      if world.Stormy? {
        owner.Others(None);
        OwnerKeeps(s, o, owner.o, past, current, s.intent);
      }
      ghost var o1 := owner.o;
      var next := owner.Begin(true);
      FollowsTransitive(o, o1, owner.o);
      FollowsLater(o, o1);
      if next.Some? {
        BeginKeeps(s, o1, owner.o, past, current, next.value);
        s := s.(lease := next);
        current := Tenure(next.value, 0, 0, []);
      }
      ok := next.Some?;
    }

    /** Tenures stay on record, and history is kept, extended by one exchange, or dropped whole. */
    twostate predicate Advanced(added: seq<Exchange>)
      reads this, owner
    {
      && Follows(old(owner.o), owner.o) && old(past) <= past
      && (s.history == [] || s.history == old(s.history) + added)
    }

    /** The end of every operation: a halt or a pending cancellation ends the work before it returns. */
    method Settle(signal: Signal)
      requires Alive() && s.busy && (signal.Halt? || Rested(s.(busy := false)))
      modifies this`s, this`past, this`current, owner
      ensures Valid() && Advanced([])
      ensures s.lease == old(s.lease) || |past| > |old(past)|
      ensures (signal.Halt? || old(s.intent.Some?)) && old(s.lease.Some?) ==> s.lease != old(s.lease)
      ensures world.Calm? ==>
                if signal.Halt? then (s.display, s.code) == Ending(old(s).(intent := Asked(old(s.intent), signal.code)), world)
                else if old(s.intent.Some?) then (s.display, s.code) == Ending(old(s), world)
                else s == old(s).(busy := false) && owner.o == old(owner.o)
    {
      hide Follows, Steady;
      ghost var o := owner.o;
      assert s.history + [] == s.history;
      if signal.Halt? {
        Invalidate(signal.code);
      } else {
        Interfere();
      }
      ghost var o1 := owner.o;
      if s.intent.Some? {
        ghost var _ := Stop();
        FollowsTransitive(o, o1, owner.o);
      }
      ghost var s1 := s;
      s := s.(busy := false);
      Restated(s1, s, owner.o, past, current);
    }

    method Open()
      requires Valid()
      modifies this`s, this`past, this`current, owner
      ensures Alive() && s.busy && Rested(s.(busy := false)) && Follows(old(owner.o), owner.o)
      ensures s == old(s).(intent := s.intent, busy := true) && past == old(past) && current == old(current)
      ensures old(s.intent.Some?) ==> s.intent.Some?
      ensures Unintended(old(s.intent), s.intent)
      ensures world.Calm? ==> s == old(s).(busy := true) && owner.o == old(owner.o)
    {
      hide Follows, Steady;
      Interfere();
      ghost var s1 := s;
      s := s.(busy := true);
      Restated(s1, s, owner.o, past, current);
    }

    /** Opens a conversation: an eligible snapshot, an allowed entry and a fresh lease. */
    method Enter(channel: nat) returns (ok: bool)
      requires Valid()
      modifies this`s, this`past, this`current, owner
      ensures Valid() && Advanced([])
      ensures old(s.display) != Inactive ==> !ok && (s.lease == old(s.lease) || |past| > |old(past)|)
      ensures ok ==> s.lease.Some? && s.history == []
      ensures world.Calm? && old(s.intent.None?) ==>
                && (ok <==> Entrance(old(s), old(owner.o), world, channel) == Done)
                && (ok ==> && s.snapshot == world.shown && s.display == Ready && s.turn == 0 && s.intent.None? && s.lease.Some?
                           && Accepts(owner.o, s.lease.value))
                && (Entrance(old(s), old(owner.o), world, channel).Halt? ==>
                      s.display == Inactive && s.code == Entrance(old(s), old(owner.o), world, channel).code)
    {
      hide Follows, Steady;
      Open();
      ghost var (o1, h1, p1) := (owner.o, s.history, past);
      var signal := Entering(channel);
      ghost var (o2, h2, p2) := (owner.o, s.history, past);
      Settle(signal);
      FollowsTransitive(o1, o2, owner.o);
      FollowsTransitive(old(owner.o), o1, owner.o);
      ok := signal.Done? && s.display == Ready && s.history == [];
    }

    method Sum(texts: seq<string>) returns (size: nat)
      ensures size == Total(texts)
    {
      size := 0;
      for i := 0 to |texts|
        invariant size == Total(texts[..i])
      {
        assert texts[..i + 1][..i] == texts[..i];
        size := size + |texts[i]|;
      }
      assert texts[..|texts|] == texts;
    }

    /** How much of the context limit is used: the snapshot's items, and both sides of every exchange. */
    method Size() returns (size: nat)
      requires s.snapshot.Some?
      ensures size == ContextSize(s)
    {
      size := Sum(s.snapshot.value.context.items);
      for i := 0 to |s.history|
        invariant size == Total(s.snapshot.value.context.items) + Exchanged(s.history[..i])
      {
        assert s.history[..i + 1][..i] == s.history[..i];
        size := size + |s.history[i].text| + |s.history[i].response|;
      }
      assert s.history[..|s.history|] == s.history;
    }

    /** Policy, context and entry of a snapshot, in this order. */
    method Eligible(now: Snapshot, channel: nat) returns (denial: Option<Code>)
      ensures denial == Ineligible(now, channel)
    {
      if !now.permitted {
        return Some(DeniedEntry);
      }
      if !now.context.available {
        return Some(Unavailable);
      }
      var items := now.context.items;
      var size := Sum(items);
      if |items| > now.limits.items || size > now.limits.context {
        return Some(Limit);
      }
      return if channel in now.entries then None else Some(DeniedEntry);
    }

    method Entering(channel: nat) returns (signal: Signal)
      requires Alive() && s.busy && Rested(s.(busy := false))
      modifies this`s, this`past, this`current, owner
      ensures Alive() && s.busy && (signal.Halt? || Rested(s.(busy := false)))
      ensures Follows(old(owner.o), owner.o) && past == old(past) && (s.history == old(s.history) || s.history == [])
      ensures old(s.display) != Inactive ==> signal.Rejected? && s == old(s)
      ensures signal.Done? ==>
                && s.display == Ready && s.snapshot.Some? && Ineligible(s.snapshot.value, channel).None?
                && s.history == [] && s.turn == 0 && s.lease.Some? && s.lease.value > old(owner.o.generation)
      ensures world.Calm? ==>
                && signal == Entrance(old(s), old(owner.o), world, channel)
                && (signal.Done? ==> s.snapshot == world.shown && s.intent.None? && Accepts(owner.o, s.lease.value))
                && (signal.Halt? ==> s == old(s))
    {
      hide Follows, Steady;
      Still(owner.o);
      if s.display != Inactive {
        return Rejected;
      }
      var now := Sample();
      if now.None? {
        return Halt(Unavailable);
      }
      var denial := Eligible(now.value, channel);
      if denial.Some? {
        return Halt(denial.value);
      }
      if s.intent.Some? {
        return Halt(s.intent.value);
      }
      ghost var o1 := owner.o;
      OwnerShape(s, o1, past, current);
      var lease := owner.Begin(true);
      FollowsTransitive(old(owner.o), o1, owner.o);
      if lease.None? {
        return Rejected;
      }
      FollowsLater(old(owner.o), o1);
      EnterKeeps(s, o1, owner.o, past, current, now.value, lease.value);
      s := s.(lease := lease, snapshot := now, history := [], turn := 0, display := Ready, code := Prompt);
      current := Tenure(lease.value, 0, 0, []);
      ghost var o2 := owner.o;
      var stop, _ := Check();
      FollowsTransitive(old(owner.o), o2, owner.o);
      signal := if stop.Some? then Halt(stop.value) else Done;
    }

    /** Creates and starts a job; until the factory answers, the job counts as begun and unproven. */
    method StartJob() returns (signal: Signal)
      requires Alive() && s.busy && s.lease.Some? && s.request.Some? && !s.job && !s.unknownJob
      modifies this`s, this`past, this`current, owner
      ensures Alive() && s.busy && (signal.Halt? || (signal.Done? && Rested(s.(busy := false)) && s.display == Processing))
      ensures Follows(old(owner.o), owner.o) && past == old(past) && s.history == old(s.history) && s.lease == old(s.lease)
      ensures current == old(current).(jobs := old(current.jobs) + 1)
      ensures s == old(s).(display := Processing, code := Busying, polls := 0, intent := s.intent, job := s.job,
                           unknownJob := s.unknownJob)
      ensures signal.Halt? ==> Unintended(old(s.intent), Some(signal.code)) || signal.code in {Unavailable, Stale}
      ensures world.Calm? ==> s.intent == old(s.intent) && owner.o == old(owner.o)
      ensures world.Calm? && Obstacle(world.shown, old(s), old(owner.o)).None? ==>
                signal == (if world.created && world.started then Done else Halt(Unavailable))
    {
      hide Follows, Steady;
      s := s.(display := Processing, code := Busying, polls := 0, unknownJob := true);
      current := current.(jobs := current.jobs + 1);
      JobBegun(old(s), s, owner.o, past, old(current));
      Interfere();
      var created := Told(if world.Calm? then world.created else false);
      if !created {
        return Halt(Unavailable);
      }
      ghost var (s1, o1) := (s, owner.o);
      s := s.(job := true, unknownJob := false);
      JobHeld(s1, s, o1, past, current);
      var stop, seen := Check();
      FollowsTransitive(old(owner.o), o1, owner.o);
      if stop.Some? {
        return Halt(stop.value);
      }
      ghost var o2 := owner.o;
      Interfere();
      FollowsTransitive(old(owner.o), o2, owner.o);
      var started := Told(if world.Calm? then world.started else false);
      if !started {
        return Halt(Unavailable);
      }
      ghost var o3 := owner.o;
      stop, seen := Check();
      FollowsTransitive(old(owner.o), o3, owner.o);
      signal := if stop.Some? then Halt(stop.value) else Done;
    }

    /** Takes one line of input; a turn is admitted only within the turn and context limits. */
    method Submit(text: string) returns (token: Option<Token>)
      requires Valid()
      modifies this`s, this`past, this`current, owner
      ensures Valid() && Advanced([])
      ensures s.lease == old(s.lease) || |past| > |old(past)|
      ensures world.Calm? && old(s.intent.None?) ==>
                && old(s.lease.Some? ==> s.snapshot.Some?)
                && var signal := Submission(old(s), old(owner.o), world, text);
                   && (token.Some? <==> signal.Done?)
                   && (signal.Done? ==>
                         && s.turn == old(s.turn) + 1 && s.history == old(s.history) && s.lease == old(s.lease)
                         && s.snapshot == old(s.snapshot) && s.intent.None? && owner.o == old(owner.o) && s.snapshot.Some?
                         && s.request.Some? && s.request.value.text == text && token == Some(s.request.value.token)
                         && s.display == (if s.snapshot.value.context.conflict.Some? then Clarifying else Processing))
                   && (signal.Rejected? ==> s == old(s))
                   && (signal.Halt? && signal.code in {Limit, Ended} ==>
                         (s.display, s.code) == Ending(old(s).(intent := Some(signal.code)), world))
    {
      hide Follows, Steady;
      Open();
      ghost var o1 := owner.o;
      var signal := Submitting(text);
      ghost var o2 := owner.o;
      Settle(signal);
      FollowsTransitive(o1, o2, owner.o);
      FollowsTransitive(old(owner.o), o1, owner.o);
      token := if signal.Done? && s.request.Some? then Some(s.request.value.token) else None;
    }

    method Submitting(text: string) returns (signal: Signal)
      requires Alive() && s.busy && Rested(s.(busy := false))
      modifies this`s, this`past, this`current, owner
      ensures Alive() && s.busy && (signal.Halt? || Rested(s.(busy := false)))
      ensures Follows(old(owner.o), owner.o) && past == old(past) && s.history == old(s.history) && s.lease == old(s.lease)
      ensures signal.Rejected? ==> s == old(s).(intent := s.intent)
      ensures signal.Done? ==>
                && old(s.display) == Ready && s.turn == old(s.turn) + 1 && s.snapshot.Some? && s.lease.Some?
                && s.turn <= s.snapshot.value.limits.turns && text != s.snapshot.value.exitPhrase
                && |text| <= s.snapshot.value.limits.text && ContextSize(s) + |text| <= s.snapshot.value.limits.context
                && s.request == Some(Request(Token(s.turn, s.lease.value, s.snapshot.value.context.revision), text, false))
                && s.display == (if s.snapshot.value.context.conflict.Some? then Clarifying else Processing)
      ensures signal == Halt(Limit) && old(s.intent) != Some(Limit) ==>
                && s == old(s).(intent := s.intent) && s.snapshot.Some?
                && (s.turn >= s.snapshot.value.limits.turns || ContextSize(s) + |text| > s.snapshot.value.limits.context)
      ensures signal.Halt? ==>
                Unintended(old(s.intent), Some(signal.code)) || signal.code in {Limit, Stale, Unavailable}
      ensures world.Calm? ==>
                && old(s.lease.Some? ==> s.snapshot.Some?)
                && signal == Submission(old(s), old(owner.o), world, text)
                && s.intent == old(s.intent) && owner.o == old(owner.o) && s.snapshot == old(s.snapshot)
                && (signal.Halt? && signal.code in {Limit, Ended} ==> s == old(s))
    {
      hide Follows, Steady;
      Still(owner.o);
      OwnerShape(s, owner.o, past, current);
      if s.display !in {Ready, Processing, Clarifying} {
        return Rejected;
      }
      var stop, _ := Check();
      if stop.Some? {
        return Halt(stop.value);
      }
      var now := s.snapshot.value;
      if |text| > now.limits.text {
        return Rejected;
      }
      if text == now.exitPhrase {
        return Halt(Ended);
      }
      if s.display != Ready {
        return Rejected;
      }
      var size := Size();
      if s.turn >= now.limits.turns || size + |text| > now.limits.context {
        return Halt(Limit);
      }
      ghost var (s1, o1) := (s, owner.o);
      s := s.(turn := s.turn + 1, request := Some(Request(Token(s.turn + 1, s.lease.value, now.context.revision), text, false)));
      Requested(s1, s, o1, past, current);
      if now.context.conflict.Some? {
        ghost var s2 := s;
        s := s.(display := Clarifying, code := Conflict);
        Restated(s2, s, o1, past, current);
        return Done;
      }
      signal := StartJob();
      FollowsTransitive(old(owner.o), o1, owner.o);
    }

    /** Answers the one pending question about a conflicting context. */
    method Clarify(token: Token, conflict: nat, useCurrent: bool) returns (ok: bool)
      requires Valid()
      modifies this`s, this`past, this`current, owner
      ensures Valid() && Advanced([])
      ensures s.lease == old(s.lease) || |past| > |old(past)|
      ensures world.Calm? && old(s.intent.None?) ==>
                && old(s.lease.Some? ==> s.snapshot.Some?)
                && (ok <==> Clarification(old(s), old(owner.o), world, token, conflict, useCurrent).Done?)
                && (ok ==> s.display == (if useCurrent then Processing else Ready) && s.lease == old(s.lease))
    {
      hide Follows, Steady;
      Open();
      ghost var o1 := owner.o;
      var signal := Clarified(token, conflict, useCurrent);
      ghost var o2 := owner.o;
      Settle(signal);
      FollowsTransitive(o1, o2, owner.o);
      FollowsTransitive(old(owner.o), o1, owner.o);
      ok := signal.Done?;
    }

    method Clarified(token: Token, conflict: nat, useCurrent: bool) returns (signal: Signal)
      requires Alive() && s.busy && Rested(s.(busy := false))
      modifies this`s, this`past, this`current, owner
      ensures Alive() && s.busy && (signal.Halt? || Rested(s.(busy := false)))
      ensures Follows(old(owner.o), owner.o) && past == old(past) && s.history == old(s.history) && s.lease == old(s.lease)
      ensures signal.Rejected? ==> s == old(s).(intent := s.intent)
      ensures signal.Done? ==>
                && old(s.display) == Clarifying && old(s.request.Some? && s.request.value.token == token)
                && s.request == (if useCurrent then Some(old(s.request.value).(resolved := true)) else None)
                && s.display == (if useCurrent then Processing else Ready)
                && s.snapshot.Some? && s.snapshot.value.context.conflict == Some(conflict)
      ensures world.Calm? ==>
                && old(s.lease.Some? ==> s.snapshot.Some?) && s.intent == old(s.intent)
                && signal == Clarification(old(s), old(owner.o), world, token, conflict, useCurrent)
    {
      hide Follows, Steady;
      Still(owner.o);
      OwnerShape(s, owner.o, past, current);
      if s.display != Clarifying {
        return Rejected;
      }
      var stop, _ := Check();
      if stop.Some? {
        return Halt(stop.value);
      }
      if token != s.request.value.token || Some(conflict) != s.snapshot.value.context.conflict {
        return Rejected;
      }
      ghost var (s1, o1) := (s, owner.o);
      if useCurrent {
        s := s.(request := Some(s.request.value.(resolved := true)));
        Resolved(s1, s, o1, past, current);
        signal := StartJob();
        FollowsTransitive(old(owner.o), o1, owner.o);
      } else {
        Unrequest(s, o1, past, current);
        s := s.(request := None);
        ghost var s2 := s;
        s := s.(display := Ready, code := CanceledTurn);
        Restated(s2, s, o1, past, current);
        signal := Done;
      }
    }

    /** Publishes at most one exchange, the answer to the pending request. */
    method Poll() returns (result: Option<Response>)
      requires Valid()
      modifies this`s, this`past, this`current, owner
      ensures Valid()
      ensures result.None? ==> Advanced([])
      ensures result.Some? ==>
                && old(s.request.Some? && s.request.value.token == result.value.token)
                && Advanced([Exchange(result.value.token, old(s.request.value.text), result.value.text)])
      ensures s.lease == old(s.lease) || |past| > |old(past)|
      ensures world.Calm? && old(s.intent.None?) ==>
                && old((s.lease.Some? ==> s.snapshot.Some?) && (s.display == Processing ==> s.request.Some?))
                && (if Polled(old(s), old(owner.o), world).Done? then
                      && result == (if old(s.display) == Processing then world.reply else None)
                      && s.lease == old(s.lease)
                      && s.history == old(s.history) +
                           if result.Some? then [Exchange(result.value.token, old(s.request.value.text), result.value.text)] else []
                    else result.None?)
    {
      hide Follows, Steady;
      Open();
      ghost var o1 := owner.o;
      var signal, response := Polling();
      ghost var (o2, h) := (owner.o, s.history);
      Settle(signal);
      FollowsTransitive(o1, o2, owner.o);
      FollowsTransitive(old(owner.o), o1, owner.o);
      assert h + [] == h && old(s.history) + [] == old(s.history);
      result := if signal.Done? then response else None;
    }

    method Polling() returns (signal: Signal, response: Option<Response>)
      requires Alive() && s.busy && Rested(s.(busy := false))
      modifies this`s, this`past, this`current, owner
      ensures Alive() && s.busy && (signal.Halt? || Rested(s.(busy := false)))
      ensures Follows(old(owner.o), owner.o) && past == old(past) && s.lease == old(s.lease)
      ensures !(signal.Done? && response.Some?) ==> s.history == old(s.history)
      ensures signal.Done? && response.Some? ==>
                && old(s.request.Some? && s.request.value.token == response.value.token)
                && s.history == old(s.history) + [Exchange(response.value.token, old(s.request.value.text), response.value.text)]
                && s.intent.None? && s.lease.Some? && Accepts(owner.o, s.lease.value)
      ensures world.Calm? ==>
                && old((s.lease.Some? ==> s.snapshot.Some?) && (s.display == Processing ==> s.request.Some?))
                && signal == Polled(old(s), old(owner.o), world) && s.intent == old(s.intent)
                && (signal.Done? ==> response == if old(s.display) == Processing then world.reply else None)
    {
      hide Follows, Steady;
      Still(owner.o);
      OwnerShape(s, owner.o, past, current);
      if s.display !in {Ready, Processing, Clarifying} {
        return Done, None;
      }
      var stop, seen := Check();
      if stop.Some? {
        return Halt(stop.value), None;
      }
      if s.display != Processing {
        return Done, None;
      }
      ghost var (s1, o1) := (s, owner.o);
      s := s.(polls := s.polls + 1);
      Restated(s1, s, o1, past, current);
      Interfere();
      FollowsTransitive(old(owner.o), o1, owner.o);
      var answered := Told(if world.Calm? then world.answered else false);
      if !answered {
        return Halt(Unavailable), None;
      }
      response := Oracle();
      if world.Calm? {
        response := world.reply;
      }
      ghost var o2 := owner.o;
      stop, seen := Check();
      FollowsTransitive(old(owner.o), o2, owner.o);
      if stop.Some? {
        return Halt(stop.value), None;
      }
      ghost var o3 := owner.o;
      signal := Receive(response);
      FollowsTransitive(old(owner.o), o3, owner.o);
    }

    /** The answer of a poll: it is published after its job proved cleanup, at one ordering point with cancellation. */
    method Receive(response: Option<Response>) returns (signal: Signal)
      requires Alive() && s.busy && s.lease.Some? && s.snapshot.Some? && Rested(s.(busy := false)) && s.display == Processing
      modifies this`s, this`past, this`current, owner
      ensures Alive() && s.busy && (signal.Halt? || (signal.Done? && Rested(s.(busy := false))))
      ensures Follows(old(owner.o), owner.o) && past == old(past) && s.lease == old(s.lease)
      ensures !(signal.Done? && response.Some?) ==> s.history == old(s.history)
      ensures response.None? ==> s == old(s) && (signal.Done? <==> s.polls < s.snapshot.value.limits.polls)
      ensures signal.Done? && response.Some? ==>
                && old(s.request.value.token) == response.value.token
                && |response.value.text| <= old(s.snapshot.value.limits.text) && current.jobs == current.proven
                && s.history == old(s.history) + [Exchange(response.value.token, old(s.request.value.text), response.value.text)]
                && s.display == Ready && s.intent.None? && Accepts(owner.o, s.lease.value)
      ensures response.Some? ==>
                var (r, request, limits) := (response.value, old(s.request.value), old(s.snapshot.value.limits));
                if r.token != request.token then signal == Halt(InvalidResult)
                else if |r.text| > limits.text || old(ContextSize(s)) + |request.text| + |r.text| > limits.context then
                  signal == Halt(Limit)
                else signal.Done? || (signal.Halt? && (Unintended(old(s.intent), Some(signal.code))
                                                       || signal.code in {CleanupUnproven, Stale, Unavailable}))
      ensures world.Calm? ==>
                signal == Reception(old(s), old(owner.o), world, response) && s.intent == old(s.intent)
    {
      hide Follows, Steady;
      Still(owner.o);
      var limits := s.snapshot.value.limits;
      if response.None? {
        return if s.polls >= limits.polls then Halt(Limit) else Done;
      }
      var request := s.request.value;
      if response.value.token != request.token {
        return Halt(InvalidResult);
      }
      var size := Size();
      if |response.value.text| > limits.text || size + |request.text| + |response.value.text| > limits.context {
        return Halt(Limit);
      }
      var clean := Cleanup();
      if !clean {
        return Halt(CleanupUnproven);
      }
      ghost var o1 := owner.o;
      var stop, _ := Check();
      FollowsTransitive(old(owner.o), o1, owner.o);
      if stop.Some? {
        return Halt(stop.value);
      }
      ghost var o2 := owner.o;
      Interfere();
      FollowsTransitive(old(owner.o), o2, owner.o);
      if s.intent.Some? {
        return Halt(s.intent.value);
      }
      if !Accepts(owner.o, s.lease.value) {
        return Halt(Stale);
      }
      ghost var s1 := s;
      s := s.(history := s.history + [Exchange(response.value.token, request.text, response.value.text)], request := None,
              display := Ready, code := Prompt);
      Published(s1, s, owner.o, past, current);
      signal := Done;
    }

    /** The exit key is recognised even though it ends the work. */
    method ExitKey(key: string) returns (matched: bool)
      requires Valid()
      modifies this`s, this`past, this`current, owner
      ensures Valid() && Advanced([])
      ensures matched ==> s.lease != old(s.lease) && |past| > |old(past)|
      ensures world.Calm? && old(s.intent.None?) ==>
                (matched <==>
                   old(s.display in {Ready, Processing, Clarifying} && Obstacle(world.shown, s, owner.o).None?
                       && s.snapshot.Some? && s.snapshot.value.exitKey == key))
      ensures matched ==> old(s.display in {Ready, Processing, Clarifying} && s.snapshot.Some? && s.snapshot.value.exitKey == key)
      ensures s.lease == old(s.lease) || |past| > |old(past)|
    {
      hide Follows, Steady;
      Open();
      ghost var o1 := owner.o;
      var signal: Signal := Rejected;
      matched := false;
      if s.display in {Ready, Processing, Clarifying} {
        var stop, _ := Check();
        matched := stop.None? && key == s.snapshot.value.exitKey;
        signal := if stop.Some? then Halt(stop.value) else if matched then Halt(Ended) else Done;
        FollowsTransitive(old(owner.o), o1, owner.o);
      }
      ghost var (o2, lease) := (owner.o, s.lease);
      Settle(signal);
      FollowsTransitive(old(owner.o), o2, owner.o);
    }

    /** Cancels the turn, ends or hands off: at once for the lease, and with cleanup when no operation is under way. */
    method Cancel(code: Code)
      requires Valid() && code in {CanceledTurn, Ended, Handoff}
      modifies this`s, this`past, this`current, owner
      ensures Valid() && Advanced([])
      ensures old(s.lease.Some?) ==> s.lease != old(s.lease) && |past| > |old(past)|
      ensures old(s.lease.None?) ==> s == old(s)
      ensures world.Calm? && old(s.lease.Some?) ==>
                (s.display, s.code) == Ending(old(s).(intent := Asked(old(s.intent), code)), world)
    {
      hide Follows, Steady;
      Still(owner.o);
      assert s.history + [] == s.history;
      if s.lease.None? {
        return;
      }
      Invalidate(code);
      ghost var o1 := owner.o;
      Open();
      FollowsTransitive(old(owner.o), o1, owner.o);
      ghost var o2 := owner.o;
      Settle(Done);
      FollowsTransitive(old(owner.o), o2, owner.o);
    }
  }

  /** In a calm, a conversation opens, takes a line that fits, and publishes the answer to it, all at the first try. */
  method Converse(c: Conversation, channel: nat, text: string, answer: string) returns (response: Option<Response>)
    requires c.Valid() && c.s.display == Inactive && c.s.intent.None? && c.owner.o.phase == Idle
    requires c.world.Calm? && c.world.shown.Some? && Ineligible(c.world.shown.value, channel).None?
    requires c.world.created && c.world.started && c.world.proves && c.world.answered
    requires var now := c.world.shown.value;
             && now.context.conflict.None? && now.limits.turns > 0 && text != now.exitPhrase
             && |text| <= now.limits.text && |answer| <= now.limits.text
             && Total(now.context.items) + |text| + |answer| <= now.limits.context
    modifies c, c.owner
    ensures c.Valid() && response.Some? && response.value.text == answer
    ensures c.s.history == [Exchange(response.value.token, text, answer)] && c.s.lease.Some?
  {
    hide Steady, Follows, Rested;
    var _ := c.Enter(channel);
    Opened(c.s, c.owner.o, c.world, text);
    var token := c.Submit(text);
    c.world := c.world.(reply := Some(Response(token.value, answer)));
    AliveProcessing(c.s, c.owner.o, c.past, c.current);
    Answerable(c.s, c.owner.o, c.world, text, answer);
    response := c.Poll();
  }

  lemma Opened(s: State, o: Owner, world: World, text: string)
    requires world.Calm? && s.snapshot == world.shown && s.snapshot.Some? && s.display == Ready && s.turn == 0
    requires s.intent.None? && s.lease.Some? && Accepts(o, s.lease.value) && s.history == [] && world.created && world.started
    requires var now := s.snapshot.value;
             && now.limits.turns > 0 && text != now.exitPhrase && |text| <= now.limits.text
             && Total(now.context.items) + |text| <= now.limits.context
    ensures Submission(s, o, world, text).Done?
  {
  }

  lemma AliveProcessing(s: State, o: Owner, past: seq<Tenure>, current: Tenure)
    requires Steady(s, o, past, current) && Rested(s) && s.display == Processing
    ensures s.lease.Some? && s.snapshot.Some? && s.request.Some? && s.job && !s.unknownJob
  {
  }

  lemma Answerable(s: State, o: Owner, world: World, text: string, answer: string)
    requires world.Calm? && s.snapshot == world.shown && s.snapshot.Some? && s.display == Processing && s.request.Some?
    requires s.intent.None? && s.lease.Some? && Accepts(o, s.lease.value) && s.history == []
    requires s.job && !s.unknownJob && world.proves && world.answered && s.request.value.text == text
    requires world.reply == Some(Response(s.request.value.token, answer))
    requires |answer| <= s.snapshot.value.limits.text
    requires Total(s.snapshot.value.context.items) + |text| + |answer| <= s.snapshot.value.limits.context
    ensures Polled(s, o, world) == Done
  {
  }

  /**
   Any run on any owner: each generation the conversation took was reported once, as clean only when every job
   created under it proved cleanup; one bad report and no client is ever admitted again; no lease comes back;
   context and history fit the limit and turns increase.
   */
  method AnyRun(conversation: Conversation, steps: nat)
    requires conversation.Valid()
    modifies conversation, conversation.owner
    ensures conversation.Valid()
    ensures Follows(old(conversation.owner.o), conversation.owner.o) && old(conversation.past) <= conversation.past
    ensures ReleasedOnce(conversation.s.lease, conversation.owner.o)
  {
    hide Follows, Steady, Rested, ReleasedOnce;
    Still(conversation.owner.o);
    for i := 0 to steps
      invariant conversation.Valid()
      invariant Follows(old(conversation.owner.o), conversation.owner.o) && old(conversation.past) <= conversation.past
    {
      ghost var (o, p) := (conversation.owner.o, conversation.past);
      conversation.world := Oracle();
      var text: string := Oracle();
      var number: nat := Oracle();
      if * {
        var _ := conversation.Enter(number);
      } else if * {
        var _ := conversation.Submit(text);
      } else if * {
        var token: Token := Oracle();
        var useCurrent: bool := Oracle();
        var _ := conversation.Clarify(token, number, useCurrent);
      } else if * {
        var _ := conversation.Poll();
      } else if * {
        var _ := conversation.ExitKey(text);
      } else {
        var code: Code := Oracle();
        if code in {CanceledTurn, Ended, Handoff} {
          conversation.Cancel(code);
        } else {
          conversation.Interfere();
        }
      }
      FollowsTransitive(old(conversation.owner.o), o, conversation.owner.o);
    }
    RunSound(conversation.s, conversation.owner.o, conversation.past, conversation.current, old(conversation.owner.o));
  }

  /** Every generation ever given to the conversation was reported exactly once, but for the one it holds: never. */
  predicate ReleasedOnce(lease: Option<nat>, o: Owner) {
    forall g <- o.given :: |Filed(o.reports, g)| == if lease == Some(g) then 0 else 1
  }

  /** Over a whole run: what the invariant says of the tenures, the owner, the history and any earlier lease. */
  lemma RunSound(s: State, o: Owner, past: seq<Tenure>, current: Tenure, before: Owner)
    requires Steady(s, o, past, current) && Follows(before, o)
    ensures forall i :: 0 <= i < |past| ==>
                          |past[i].releases| == 1 && (past[i].releases[0] ==> past[i].proven == past[i].jobs)
    ensures forall i :: 0 <= i < |o.given| ==>
              if i < |past| then o.given[i] == past[i].generation && Filed(o.reports, o.given[i]) == past[i].releases
              else s.lease == Some(o.given[i]) && Filed(o.reports, o.given[i]) == []
    ensures ReleasedOnce(s.lease, o)
    ensures (exists i :: 0 <= i < |past| && past[i].releases == [false]) ==> o.phase == Faulted
    ensures forall g :: 0 < g <= before.generation && !Accepts(before, g) ==> !Accepts(o, g)
    ensures s.snapshot.Some? ==> ContextSize(s) <= s.snapshot.value.limits.context
    ensures forall i, j :: 0 <= i < j < |s.history| ==> s.history[i].token.turn < s.history[j].token.turn
  {
    IncreasingPairs(s.history, if s.request.Some? then s.turn - 1 else s.turn);
  }

  lemma {:induction false} IncreasingPairs(history: seq<Exchange>, bound: nat)
    requires Increasing(history, bound)
    ensures forall i :: 0 <= i < |history| ==> history[i].token.turn <= bound
    ensures forall i, j :: 0 <= i < j < |history| ==> history[i].token.turn < history[j].token.turn
  {
    if history != [] {
      var n := |history| - 1;
      IncreasingPairs(history[..n], history[n].token.turn - 1);
      assert forall i :: 0 <= i < n ==> history[..n][i] == history[i];
    }
  }

  lemma JobBegun(s: State, s': State, o: Owner, past: seq<Tenure>, current: Tenure)
    requires Steady(s, o, past, current) && s.lease.Some? && !s.job && !s.unknownJob
    requires s' == s.(display := s'.display, code := s'.code, polls := s'.polls, unknownJob := true)
    ensures Steady(s', o, past, current.(jobs := current.jobs + 1))
  {
  }

  lemma JobHeld(s: State, s': State, o: Owner, past: seq<Tenure>, current: Tenure)
    requires Steady(s, o, past, current) && s.lease.Some? && s.unknownJob && s' == s.(job := true, unknownJob := false)
    ensures Steady(s', o, past, current)
  {
  }

  lemma Requested(s: State, s': State, o: Owner, past: seq<Tenure>, current: Tenure)
    requires Steady(s, o, past, current) && s.request.None?
    requires s' == s.(turn := s.turn + 1, request := s'.request)
    requires s'.request.Some? && s'.request.value.token.turn == s'.turn
    ensures Steady(s', o, past, current)
  {
  }

  lemma Resolved(s: State, s': State, o: Owner, past: seq<Tenure>, current: Tenure)
    requires Steady(s, o, past, current) && s.request.Some?
    requires s' == s.(request := Some(s.request.value.(resolved := true)))
    ensures Steady(s', o, past, current)
  {
  }

  lemma Published(s: State, s': State, o: Owner, past: seq<Tenure>, current: Tenure)
    requires Steady(s, o, past, current) && s.request.Some? && s.snapshot.Some? && |s'.history| > 0
    requires var e := s'.history[|s'.history| - 1];
             && e.token == s.request.value.token && s'.history == s.history + [e]
             && ContextSize(s) + |e.text| + |e.response| <= s.snapshot.value.limits.context
    requires s' == s.(history := s'.history, request := None, display := s'.display, code := s'.code)
    ensures Steady(s', o, past, current)
  {
  }

  /** Why a snapshot does not admit a conversation through this entry. */
  function Ineligible(now: Snapshot, channel: nat): Option<Code> {
    if !now.permitted then Some(DeniedEntry)
    else if !now.context.available then Some(Unavailable)
    else if |now.context.items| > now.limits.items || Total(now.context.items) > now.limits.context then Some(Limit)
    else if channel !in now.entries then Some(DeniedEntry)
    else None
  }

  lemma EnterKeeps(s: State, o: Owner, o': Owner, past: seq<Tenure>, current: Tenure, now: Snapshot, lease: nat)
    requires Steady(s, o, past, current) && s.lease.None? && s.request.None? && !s.unknownJob
    requires Follows(o, o') && Consistent(o') && Accepts(o', lease) && lease > o.generation
    requires o'.given == o.given + [lease] && o'.reports == o.reports
    requires Total(now.context.items) <= now.limits.context
    ensures Steady(s.(lease := Some(lease), snapshot := Some(now), history := [], turn := 0, display := Ready, code := Prompt),
                   o', past, Tenure(lease, 0, 0, []))
  {
    FiledNever(o.reports, lease);
  }

  /** How an operation's body ends: normally, with a reason to stop, or by refusing the call. */
  datatype Signal = Done | Halt(code: Code) | Rejected

  /** The one report of a lease: its tenure is over, and a bad report faults the owner. */
  lemma ReleaseKeeps(s: State, o: Owner, o': Owner, past: seq<Tenure>, current: Tenure, clean: bool)
    requires Steady(s, o, past, current) && s.lease.Some? && !s.job && s.unknownJob == !clean
    requires Consistent(o') && o' == Settled(o, s.lease.value, clean)
    ensures Steady(s.(request := None, lease := None), o', past + [current.(releases := [clean])], current)
  {
    forall g: nat
      ensures Filed(o'.reports, g) == Filed(o.reports, g) + if g == s.lease.value then [clean] else []
    {
      FiledMore(o.reports, Report(s.lease.value, clean), g);
    }
  }

  lemma Cleared(s: State, o: Owner, past: seq<Tenure>, current: Tenure)
    requires Steady(s, o, past, current) && s.lease.None? && s.request.None?
    ensures Steady(s.(history := [], snapshot := None), o, past, current)
  {
  }

  lemma Unrequest(s: State, o: Owner, past: seq<Tenure>, current: Tenure)
    requires Steady(s, o, past, current)
    ensures Steady(s.(request := None), o, past, current)
  {
  }

  lemma BeginKeeps(s: State, o: Owner, o': Owner, past: seq<Tenure>, current: Tenure, next: nat)
    requires Steady(s, o, past, current) && s.lease.None? && s.snapshot.Some? && !s.unknownJob
    requires Follows(o, o') && Consistent(o') && Accepts(o', next) && next > o.generation
    requires o'.given == o.given + [next] && o'.reports == o.reports
    ensures Steady(s.(lease := Some(next)), o', past, Tenure(next, 0, 0, []))
  {
    FiledNever(o.reports, next);
  }

  /** Display, code and the poll count are only for show. */
  lemma Restated(s: State, s': State, o: Owner, past: seq<Tenure>, current: Tenure)
    requires Steady(s, o, past, current)
    requires s' == s.(display := s'.display, code := s'.code, polls := s'.polls, busy := s'.busy, intent := s'.intent)
    ensures Steady(s', o, past, current)
  {
  }

  lemma Still(o: Owner)
    ensures Follows(o, o)
  {
  }

  lemma OwnerShape(s: State, o: Owner, past: seq<Tenure>, current: Tenure)
    requires Steady(s, o, past, current)
    ensures Consistent(o) && (s.lease.Some? ==> o.holder == s.lease && o.phase in {Owned, Canceling} && s.snapshot.Some?)
    ensures Unheld(o, s.lease)
  {
  }
}

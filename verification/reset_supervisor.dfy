/**
 The native reset supervisor: one durable phase record, written before each
 irreversible input to the native window. A crash, a failed save, a loss of power
 or a concurrent release may come between any two instructions.
 */
module ResetSupervisor {
  import opened Wrappers
  import opened Records

  datatype Phase =
    | Monitoring | WaitingRelease | WaitingIdle | ClearIntent | WaitingTitle | PromptRefused | PromptIntent
    | WaitingFresh | Verified | Recovered

  /** The facts that fix one native context. */
  datatype Identity = Identity(session: nat, createdAt: nat, creationLog: nat, process: nat)

  datatype Proof = Proof(identity: Identity, transcript: Option<nat>, userInput: bool)

  datatype State = State(phase: Phase, package: nat, started: Option<int>, context: Option<Proof>, refusals: nat)

  /** A record without a package, and what an absent file reads as. */
  const Watching := State(Monitoring, 0, None, None, 0)

  /** Inputs given to the native window, in order. */
  datatype Effect =
    | Clear(package: nat, started: int)
    | Queue(package: nat, identity: Identity, reading: int, dispatched: bool)

  const Window: int := 120

  /** A reading within the window of the start of this clear. */
  predicate InTime(e: Effect, reading: int)
    requires e.Clear?
  {
    0 <= reading - e.started <= Window
  }

  /** What may follow a given trace. */
  predicate Fits(past: seq<Effect>, e: Effect) {
    match e
    case Clear(p, _) => forall e' <- past :: e'.package != p
    case Queue(p, identity, reading, _) =>
      && (exists e' <- past :: e'.Clear? && e'.package == p && InTime(e', reading))
      && forall e' <- past :: e'.Queue? && e'.package == p ==> !e'.dispatched && e'.identity == identity
  }

  predicate Orderly(effects: seq<Effect>) {
    effects == [] ||
    (Orderly(effects[..|effects| - 1]) && Fits(effects[..|effects| - 1], effects[|effects| - 1]))
  }

  lemma {:induction false} FitsEverywhere(effects: seq<Effect>, k: nat)
    requires Orderly(effects) && k < |effects|
    ensures Fits(effects[..k], effects[k])
  {
    if k < |effects| - 1 {
      FitsEverywhere(effects[..|effects| - 1], k);
      assert effects[..|effects| - 1][..k] == effects[..k];
    }
  }

  /**
   Each package is cleared at most once and prompted at most once; every attempt comes after its clear, within
   the window of the start recorded for it, and all attempts go to one context.
   */
  lemma OncePerPackage(effects: seq<Effect>, j: nat)
    requires Orderly(effects) && j < |effects|
    ensures effects[j].Clear? ==> forall i :: 0 <= i < j ==> effects[i].package != effects[j].package
    ensures effects[j].Queue? ==>
              exists i :: 0 <= i < j && effects[i].Clear? && effects[i].package == effects[j].package
                          && 0 <= effects[j].reading - effects[i].started <= Window
    ensures effects[j].Queue? ==>
              forall i :: 0 <= i < j && effects[i].Queue? && effects[i].package == effects[j].package ==>
                            !effects[i].dispatched && effects[i].identity == effects[j].identity
  {
  }

  /** What a record may claim, given the inputs so far. */
  predicate Sound(s: State, effects: seq<Effect>, issued: nat) {
    && s.package < issued
    && match s.phase
       case WaitingIdle => forall e <- effects :: e.package != s.package
       case WaitingTitle => Cleared(s, effects) && forall e <- effects :: e.Queue? ==> e.package != s.package
       case PromptRefused =>
         && Cleared(s, effects) && s.context.Some?
         && forall e <- effects :: e.Queue? && e.package == s.package ==>
                                     !e.dispatched && e.identity == s.context.value.identity
       case WaitingFresh => Prompted(s, effects)
       case Verified => Prompted(s, effects)
       case _ => true
  }

  predicate Dispatches(e: Effect, package: nat, identity: Identity) {
    e.Queue? && e.package == package && e.identity == identity && e.dispatched
  }

  predicate Cleared(s: State, effects: seq<Effect>) {
    s.started.Some? && exists e <- effects :: e.Clear? && e.package == s.package && e.started == s.started.value
  }

  predicate Prompted(s: State, effects: seq<Effect>) {
    && Cleared(s, effects) && s.context.Some?
    && exists e <- effects :: e.Queue? && e.package == s.package && e.dispatched && e.identity == s.context.value.identity
  }

  /** Every state that a restart may read is one the inputs so far allow. */
  ghost predicate Backed(pending: seq<Entry<State>>, effects: seq<Effect>, issued: nat) {
    forall e <- pending :: e.canonical.Some? ==> Sound(e.canonical.value, effects, issued)
  }

  /** Whatever was cleared was cleared in the home boot, and while that lasts no start is ahead of its clock. */
  predicate Behind(effects: seq<Effect>, home: nat, boot: nat, clock: int) {
    forall e <- effects :: e.Clear? ==> home <= boot && (boot == home ==> e.started <= clock)
  }

  ghost predicate Disciplined(pending: seq<Entry<State>>, effects: seq<Effect>, issued: nat) {
    && pending != [] && 0 < issued && Orderly(effects) && (forall e <- effects :: e.package < issued)
    && Backed(pending, effects, issued)
  }

  /** Records that claim nothing about the inputs to any package. */
  ghost predicate Silent(pending: seq<Entry<State>>) {
    forall e <- pending :: e.canonical.Some? ==>
      e.canonical.value.phase in {Monitoring, ClearIntent, PromptIntent}
  }

  lemma EffectKeeps(pending: seq<Entry<State>>, effects: seq<Effect>, issued: nat, e: Effect)
    requires Disciplined(pending, effects, issued) && Silent(pending)
    requires Fits(effects, e) && e.package < issued
    ensures Disciplined(pending, effects + [e], issued)
  {
  }

  /** A new package number is as fresh as a new package directory. */
  lemma IssueKeeps(pending: seq<Entry<State>>, effects: seq<Effect>, issued: nat)
    requires Disciplined(pending, effects, issued)
    ensures Disciplined(pending, effects, issued + 1)
    ensures Sound(State(WaitingIdle, issued, None, None, 0), effects, issued + 1)
  {
  }

  /** An intent claims nothing of the inputs. */
  lemma IntentSound(s: State, effects: seq<Effect>, issued: nat, started: Option<int>, context: Option<Proof>)
    requires Sound(s, effects, issued)
    ensures Sound(s.(phase := ClearIntent, started := started), effects, issued)
    ensures Sound(s.(phase := PromptIntent, context := context), effects, issued)
  {
  }

  lemma SoundPackage(s: State, effects: seq<Effect>, issued: nat)
    requires Sound(s, effects, issued)
    ensures s.package < issued
  {
  }

  lemma Titled(s: State, effects: seq<Effect>, issued: nat)
    requires Sound(s, effects, issued) && s.phase in {WaitingTitle, PromptRefused}
    ensures s.started.Some? && (s.phase == PromptRefused ==> s.context.Some?)
  {
  }

  lemma ClearKeeps(
    s: State, next: State, pending: seq<Entry<State>>, effects: seq<Effect>, issued: nat, home: nat, boot: nat, now: int,
    clock: int)
    requires Sound(s, effects, issued) && s.phase == WaitingIdle && next == s.(phase := WaitingTitle, started := Some(now))
    requires Disciplined(pending, effects, issued) && Silent(pending) && Behind(effects, home, boot, clock)
    requires boot == home && now <= clock
    ensures var effects' := effects + [Clear(s.package, now)];
            Disciplined(pending, effects', issued) && Behind(effects', home, boot, clock) && Sound(next, effects', issued)
  {
    var e := Clear(s.package, now);
    EffectKeeps(pending, effects, issued, e);
    assert e in effects + [e];
    hide Disciplined;
  }

  lemma QueueFits(s: State, effects: seq<Effect>, issued: nat, e: Effect, home: nat, boot: nat, now: int)
    requires Sound(s, effects, issued) && s.phase in {WaitingTitle, PromptRefused}
    requires e.Queue? && e.package == s.package && e.reading == now && now - s.started.value <= Window
    requires s.phase == PromptRefused ==> e.identity == s.context.value.identity
    requires Behind(effects, home, boot, now) && boot == home
    ensures Fits(effects, e)
  {
    var clear :| clear in effects && clear.Clear? && clear.package == s.package && clear.started == s.started.value;
    assert InTime(clear, now);
  }

  lemma QueueSound(s: State, proof: Proof, effects: seq<Effect>, issued: nat, e: Effect)
    requires Sound(s, effects, issued) && s.phase in {WaitingTitle, PromptRefused}
    requires e.Queue? && e.package == s.package && e.identity == proof.identity
    requires s.phase == PromptRefused ==> e.identity == s.context.value.identity
    ensures e.dispatched ==> Sound(s.(context := Some(proof), phase := WaitingFresh), effects + [e], issued)
    ensures !e.dispatched ==>
              Sound(s.(context := Some(proof), phase := PromptRefused, refusals := s.refusals + 1), effects + [e], issued)
  {
    assert e in effects + [e];
    var clear :| clear in effects && clear.Clear? && clear.package == s.package && clear.started == s.started.value;
    assert clear in effects + [e];
  }

  lemma QueueBehind(effects: seq<Effect>, e: Effect, home: nat, boot: nat, clock: int)
    requires Behind(effects, home, boot, clock) && e.Queue?
    ensures Behind(effects + [e], home, boot, clock)
  {
  }

  lemma VerifiedSound(s: State, effects: seq<Effect>, issued: nat)
    requires Sound(s, effects, issued) && s.phase == WaitingFresh
    ensures Sound(s.(phase := Verified), effects, issued)
  {
  }

  datatype Outcome = Returned(state: State) | Raise | Crash

  /**
   What a step finds outside: whether its bindings hold, a reset is due, a receipt was accepted, a ceiling decision is
   to be saved and the boundary is released; the window and what is in it, before the prompt and at the prompt. When it
   is `quiet`, nobody releases, nothing stops the step, every save is acknowledged and no time passes.
   */
  datatype Outside = Outside(
    quiet: bool, bound: bool, proceeds: bool, receipted: bool, folds: bool, released: bool, seen: bool, idle: bool,
    titled: bool, found: Option<Proof>, empty: bool, again: Option<Proof>)

  /** What a step may change. */
  datatype Scene = Scene(effects: seq<Effect>, pending: seq<Entry<State>>, issued: nat)

  function Stored(c: Scene, s: State): Scene {
    c.(pending := [Entry(Some(s), false)])
  }

  /** What a quiet step comes to, `here` in the boot of the bound window or not. */
  function Quietly(c: Scene, s: State, out: Outside, here: bool, now: int): (Outcome, Scene) {
    var overdue := s.started.Some? && now > s.started.value + 120;
    if !out.bound then (Raise, c)
    else match s.phase
         case Recovered => (Raise, c)
         case ClearIntent => (Raise, c)
         case PromptIntent => (Raise, c)
         case Monitoring => Preparing(c, s, out)
         case WaitingRelease => Preparing(c, s, out)
         case Verified => Preparing(c, s, out)
         case WaitingIdle => if overdue then (Raise, c) else QuietClear(c, s, out, here, now)
         case WaitingTitle => if overdue then (Raise, c) else QuietPrompt(c, s, out, here, now)
         case PromptRefused => if overdue then (Raise, c) else QuietPrompt(c, s, out, here, now)
         case WaitingFresh =>
           if overdue && !out.receipted then (Raise, c)
           else if out.proceeds then (Returned(s.(phase := Verified)), Stored(c, s.(phase := Verified)))
           else (Returned(s), c)
  }

  function Preparing(c: Scene, s: State, out: Outside): (Outcome, Scene) {
    var folded := if out.folds then Stored(c, s) else c;
    var next := State(if out.released then WaitingIdle else WaitingRelease, if out.released then c.issued else 0, None, None, 0);
    if !out.proceeds then (Returned(s), folded)
    else (Returned(next), Stored(folded, next).(issued := if out.released then c.issued + 1 else c.issued))
  }

  /** The clear is due when the old context is idle and the window is there, and only then. */
  function QuietClear(c: Scene, s: State, out: Outside, here: bool, now: int): (Outcome, Scene) {
    var next := State(WaitingTitle, s.package, Some(now), s.context, s.refusals);
    if !out.idle then (Returned(s), c)
    else if !(out.seen && here) then (Raise, c)
    else (Returned(next), Stored(c, next).(effects := c.effects + [Clear(s.package, now)]))
  }

  /** The prompt is due for an empty, titled context that no refusal had named another one for. */
  function QuietPrompt(c: Scene, s: State, out: Outside, here: bool, now: int): (Outcome, Scene) {
    if !(out.seen && here) then (Raise, c)
    else if !out.titled || out.found.None? then (Returned(s), c)
    else
      var proof := out.found.value;
      var moved := s.phase == PromptRefused && s.context.Some? && s.context.value.identity != proof.identity;
      if moved || proof.userInput || !out.empty then (Raise, c)
      else if out.again == Some(proof) then
        var next := State(WaitingFresh, s.package, s.started, Some(proof), s.refusals);
        (Returned(next), Stored(c, next).(effects := c.effects + [Queue(s.package, proof.identity, now, true)]))
      else
        var next := State(PromptRefused, s.package, s.started, Some(proof), s.refusals + 1);
        (Raise, Stored(c, next).(effects := c.effects + [Queue(s.package, proof.identity, now, false)]))
  }

  class Supervisor {
    const file: Record<State>
    /** The boot in which the processes of the bound window run; no other boot has them. */
    const home: nat
    ghost var effects: seq<Effect>
    var issued: nat
    var boot: nat
    var clock: int

    ghost predicate Valid()
      reads this, file
    {
      file.Valid() && Disciplined(file.pending, effects, issued) && Behind(effects, home, boot, clock)
    }

    constructor (home: nat)
      ensures Valid() && fresh(file) && effects == [] && this.home == home
    {
      file := new Record();
      this.home := home;
      effects, issued, boot, clock := [], 1, 0, 0;
    }

    /** The monotonic clock of the running machine. */
    method Now(quiet: bool) returns (now: int)
      requires Valid()
      modifies this`clock
      ensures Valid() && clock == now >= old(clock) && (quiet ==> now == old(clock))
    {
      var passed: nat := Oracle();
      passed := if quiet then 0 else passed;
      now := clock + passed;
      clock := now;
    }

    /** The bound window is there, with the very processes it is bound to. */
    method Check(out: Outside) returns (ok: bool)
      ensures ok ==> boot == home
      ensures out.quiet ==> (ok <==> out.seen && boot == home)
    {
      var seen: bool := Oracle();
      seen := if out.quiet then out.seen else seen;
      ok := seen && boot == home;
    }

    /** A loss of power: the record may go back, and the clock starts again anywhere. */
    method LosePower()
      requires Valid()
      modifies file, this`boot, this`clock
      ensures Valid()
    {
      file.LosePower();
      boot := boot + 1;
      clock := Oracle();
    }

    /** What the record shows; an absent one reads as monitoring. */
    function Shown(): State
      requires file.Valid()
      reads this, file
    {
      if file.Visible().canonical.Some? then file.Visible().canonical.value else Watching
    }

    /** Reads the record; unlike a save, it does not look for residue. */
    method Status() returns (s: State)
      requires Valid()
      ensures Sound(s, effects, issued)
      ensures s == Shown()
      ensures file.Visible().canonical.None? ==> s.phase == Monitoring
    {
      assert file.Visible() in file.pending;
      s := if file.Visible().canonical.Some? then file.Visible().canonical.value else Watching;
    }

    /** Something stops the step, but not when it is quiet. */
    method Stops(quiet: bool) returns (stops: bool)
      ensures quiet ==> !stops
    {
      stops := Oracle();
      stops := !quiet && stops;
    }

    /** What a step may change, as it is. */
    ghost function Seen(): Scene
      reads this, file
    {
      Scene(effects, file.pending, issued)
    }

    method Save(s: State, quiet: bool) returns (outcome: Wrote)
      requires Valid() && Sound(s, effects, issued)
      modifies file
      ensures Valid()
      ensures outcome.Written? ==> file.pending == [Entry(Some(s), false)]
      ensures old(file.Visible()).residue ==> !outcome.Written? && file.pending == old(file.pending)
      ensures quiet && !old(file.Visible()).residue ==> outcome.Written?
    {
      if quiet {
        outcome := file.Write(s, Synced(false));
      } else {
        outcome := file.AtomicWrite(s);
      }
    }

    /** A release takes no lock: it may write over the record at any moment. */
    method Release(quiet: bool)
      requires Valid()
      modifies file
      ensures Valid() && (quiet ==> file.pending == old(file.pending))
      ensures old(Silent(file.pending)) ==> Silent(file.pending)
      ensures old(file.Visible()).residue ==> file.pending == old(file.pending)
    {
      var releases := Stops(quiet);
      if releases {
        var _ := file.AtomicWrite(Watching);
      }
    }

    /** The package is sealed before anything is done with it. */
    method Prepare(out: Outside) returns (r: Outcome)
      requires Valid()
      modifies this`issued, file
      ensures Valid()
      ensures old(file.Visible()).residue ==> !r.Returned? && file.pending == old(file.pending)
      ensures out.quiet && !old(file.Visible()).residue ==>
                var next := if out.released then State(WaitingIdle, old(issued), None, None, 0)
                            else State(WaitingRelease, 0, None, None, 0);
                && r == Returned(next) && file.pending == [Entry(Some(next), false)]
                && issued == old(issued) + if out.released then 1 else 0
    {
      if !out.released {
        r := Saved(State(WaitingRelease, 0, None, None, 0), out.quiet);
        return;
      }
      var stops := Stops(out.quiet);
      if stops {
        return Raise;
      }
      var package := issued;
      IssueKeeps(file.pending, effects, issued);
      issued := issued + 1;
      Release(out.quiet);
      r := Saved(State(WaitingIdle, package, None, None, 0), out.quiet);
    }

    /** Saves and returns. */
    method Saved(s: State, quiet: bool) returns (r: Outcome)
      requires Valid() && Sound(s, effects, issued)
      modifies file
      ensures Valid() && (r.Returned? ==> r.state == s && file.pending == [Entry(Some(s), false)])
      ensures old(file.Visible()).residue ==> !r.Returned? && file.pending == old(file.pending)
      ensures quiet && !old(file.Visible()).residue ==> r.Returned?
    {
      var outcome := Save(s, quiet);
      r := match outcome case Written => Returned(s) case Raised => Raise case Died => Crash;
    }

    /** One step of the supervisor: at most one input, behind its durable intent. A quiet step takes what is due. */
    method Step(out: Outside) returns (r: Outcome)
      requires Valid()
      modifies this`effects, this`issued, this`clock, file
      ensures Valid() && old(effects) <= effects && |effects| <= |old(effects)| + 1
      ensures old(file.Visible()).residue ==> effects == old(effects) && file.pending == old(file.pending)
      ensures out.quiet && !old(file.Visible()).residue ==>
                (r, Seen()) == Quietly(old(Seen()), old(Shown()), out, boot == home, clock)
      ensures out.quiet ==> clock == old(clock)
    {
      hide Disciplined, Behind, Sound, QuietClear, QuietPrompt, Preparing;
      if !out.bound {
        return Raise;
      }
      var s := Status();
      Release(out.quiet);
      var now := Now(out.quiet);
      var expired := s.started.Some? && now - s.started.value > Window && !(s.phase == WaitingFresh && out.receipted);
      match s.phase
      case Recovered =>
        return Raise;
      case Monitoring | Verified | WaitingRelease =>
        r := Watch(s, out);
      case ClearIntent | PromptIntent =>
        return Raise;
      case WaitingIdle =>
        r := Raise;
        if !expired {
          r := Clearing(s, out);
        }
      case WaitingTitle | PromptRefused =>
        r := Raise;
        Titled(s, effects, issued);
        if !expired {
          r := Prompting(s, out);
        }
      case WaitingFresh =>
        if expired {
          return Raise;
        }
        if !out.proceeds {
          return Returned(s);
        }
        VerifiedSound(s, effects, issued);
        r := Saved(s.(phase := Verified), out.quiet);
    }

    /** No reset is under way: a ceiling decision, when there is one, is saved with the same phase, and a reset that
        is due is prepared. */
    method Watch(s: State, out: Outside) returns (r: Outcome)
      requires Valid() && Sound(s, effects, issued) && s.phase in {Monitoring, Verified, WaitingRelease}
      modifies this`issued, file
      ensures Valid()
      ensures old(file.Visible()).residue ==> file.pending == old(file.pending)
      ensures out.quiet && !old(file.Visible()).residue ==> (r, Seen()) == Preparing(old(Seen()), s, out)
    {
      hide Disciplined, Behind, Sound;
      if out.folds {
        r := Saved(s, out.quiet);
        if !r.Returned? {
          return;
        }
      }
      if !out.proceeds {
        return Returned(s);
      }
      r := Prepare(out);
    }

    method Clearing(s: State, out: Outside) returns (r: Outcome)
      requires Valid() && Sound(s, effects, issued) && s.phase == WaitingIdle
      modifies this`effects, this`clock, file
      ensures Valid() && old(effects) <= effects && |effects| <= |old(effects)| + 1 && issued == old(issued)
      ensures old(file.Visible()).residue ==> effects == old(effects) && file.pending == old(file.pending)
      ensures r.Returned? ==>
                || (r.state == s && effects == old(effects))
                || (r.state == s.(phase := WaitingTitle, started := r.state.started) && r.state.started.Some?
                    && effects == old(effects) + [Clear(s.package, r.state.started.value)])
      ensures out.quiet && !old(file.Visible()).residue ==>
                (r, Seen()) == QuietClear(old(Seen()), s, out, boot == home, clock)
      ensures out.quiet ==> clock == old(clock)
    {
      hide Disciplined, Behind, Sound;
      if !out.idle {
        return Returned(s);
      }
      var ready := Check(out);
      if !ready {
        return Raise;
      }
      var now := Now(out.quiet);
      var next := s.(phase := ClearIntent, started := Some(now));
      IntentSound(s, effects, issued, next.started, None);
      r := Saved(next, out.quiet);
      if !r.Returned? {
        return;
      }
      Release(out.quiet);
      var stops := Stops(out.quiet);
      if stops {
        return Crash;
      }
      var still := Check(out);
      if !still {
        return Raise;
      }
      ClearKeeps(s, next.(phase := WaitingTitle), file.pending, effects, issued, home, boot, now, clock);
      effects := effects + [Clear(s.package, now)];
      stops := Stops(out.quiet);
      if stops {
        return Raise;
      }
      Release(out.quiet);
      r := Saved(next.(phase := WaitingTitle), out.quiet);
    }

    method Prompting(s: State, out: Outside) returns (r: Outcome)
      requires Valid() && Sound(s, effects, issued) && s.phase in {WaitingTitle, PromptRefused}
      modifies this`effects, this`clock, file
      ensures Valid() && old(effects) <= effects && |effects| <= |old(effects)| + 1 && issued == old(issued)
      ensures old(file.Visible()).residue ==> effects == old(effects) && file.pending == old(file.pending)
      ensures r.Returned? ==>
                || (r.state == s && effects == old(effects))
                || (r.state == s.(phase := WaitingFresh, context := r.state.context) && r.state.context.Some?
                    && |effects| == |old(effects)| + 1
                    && Dispatches(effects[|effects| - 1], s.package, r.state.context.value.identity))
      ensures out.quiet && !old(file.Visible()).residue && s.started.Some? && clock <= s.started.value + 120 ==>
                (r, Seen()) == QuietPrompt(old(Seen()), s, out, boot == home, clock)
      ensures out.quiet ==> clock == old(clock)
    {
      hide Disciplined, Behind, Sound;
      Titled(s, effects, issued);
      var ready := Check(out);
      if !ready {
        return Raise;
      }
      if !out.titled || out.found.None? {
        return Returned(s);
      }
      var proof := out.found.value;
      if s.phase == PromptRefused && proof.identity != s.context.value.identity {
        return Raise;
      }
      if proof.userInput || !out.empty {
        return Raise;
      }
      var now := Now(out.quiet);
      if now - s.started.value > Window {
        return Raise;
      }
      var next := s.(context := Some(proof), phase := PromptIntent);
      IntentSound(s, effects, issued, None, next.context);
      r := Saved(next, out.quiet);
      if !r.Returned? {
        return;
      }
      Release(out.quiet);
      var stops := Stops(out.quiet);
      if stops {
        return Crash;
      }
      r := Queueing(s, next, proof, now, out);
    }

    /** Before the command runs, a refusal proves that nothing was dispatched; afterwards nothing does. */
    method Queueing(ghost s: State, next: State, proof: Proof, now: int, out: Outside) returns (r: Outcome)
      requires Valid() && Silent(file.pending)
      requires Sound(s, effects, issued) && s.phase in {WaitingTitle, PromptRefused}
      requires s.phase == PromptRefused ==> proof.identity == s.context.value.identity
      requires next == s.(context := Some(proof), phase := PromptIntent) && now - s.started.value <= Window && now == clock
      requires boot == home
      modifies this`effects, file
      ensures Valid() && |effects| == |old(effects)| + 1 && old(effects) <= effects
      ensures r.Returned? ==>
                r.state == next.(phase := WaitingFresh) && Dispatches(effects[|effects| - 1], next.package, proof.identity)
      ensures out.quiet && !old(file.Visible()).residue ==>
                var taken := out.seen && out.again == Some(proof) && !proof.userInput;
                var end := if taken then next.(phase := WaitingFresh) else next.(phase := PromptRefused, refusals := next.refusals + 1);
                && r == (if taken then Returned(end) else Raise) && file.pending == [Entry(Some(end), false)]
                && effects == old(effects) + [Queue(next.package, proof.identity, now, taken)]
    {
      hide Disciplined, Behind, Fits;
      SoundPackage(s, effects, issued);
      var again: Option<Proof> := Oracle();
      again := if out.quiet then out.again else again;
      var still := Check(out);
      var e := Queue(next.package, proof.identity, now, still && again == Some(proof) && !proof.userInput);
      QueueFits(s, effects, issued, e, home, boot, now);
      EffectKeeps(file.pending, effects, issued, e);
      QueueSound(s, proof, effects, issued, e);
      QueueBehind(effects, e, home, boot, clock);
      effects := effects + [e];
      if !e.dispatched {
        var _ := Saved(next.(phase := PromptRefused, refusals := next.refusals + 1), out.quiet);
        return Raise;
      }
      var stops := Stops(out.quiet);
      if stops {
        return Raise;
      }
      Release(out.quiet);
      r := Saved(next.(phase := WaitingFresh), out.quiet);
    }

    /** Accepted maintenance authority retires an expired attempt without any input; in the quiet it always does. */
    method Recover(accepted: bool, quiet: bool) returns (r: Outcome)
      requires Valid()
      modifies file, this`clock
      ensures Valid()
      ensures r.Returned? ==>
                && accepted && old(Shown()).started.Some? && clock - old(Shown()).started.value > 120
                && r.state == old(Shown()).(phase := Recovered) && file.pending == [Entry(Some(r.state), false)]
      ensures (quiet && !old(file.Visible()).residue && accepted && old(Shown()).started.Some?
               && old(clock) - old(Shown()).started.value > 120) ==> r.Returned?
      ensures !accepted ==> r.Raise? && file.pending == old(file.pending)
    {
      var s := Status();
      var now := Now(quiet);
      if !accepted || s.started.None? || now - s.started.value <= Window {
        return Raise;
      }
      r := Saved(s.(phase := Recovered), quiet);
    }

    /** Every run with every restart keeps the discipline; `OncePerPackage` says what that means. */
    method AnyRun(steps: nat)
      requires Valid()
      modifies this, file
      ensures Valid() && Orderly(effects) && old(effects) <= effects
    {
      for i := 0 to steps
        invariant Valid() && old(effects) <= effects
      {
        var accepted: bool := Oracle();
        var quiet: bool := Oracle();
        var out: Outside := Oracle();
        if * {
          var _ := Step(out);
        } else if * {
          Release(false);
        } else if * {
          var _ := Recover(accepted, quiet);
        } else {
          LosePower();
        }
      }
    }
  }

  /**
   In the quiet, a reset that is due runs to its end in four steps: the package is sealed, the window is cleared
   once, the fresh context is prompted once, and it is verified.
   */
  method RunsThrough(supervisor: Supervisor, out: Outside)
    requires supervisor.Valid() && supervisor.boot == supervisor.home && !supervisor.file.Visible().residue
    requires supervisor.Shown().phase in {Monitoring, WaitingRelease, Verified}
    requires out.quiet && out.bound && out.proceeds && out.released && out.seen && out.idle && out.titled && out.empty
    requires out.found.Some? && !out.found.value.userInput && out.again == out.found
    modifies supervisor, supervisor.file
    ensures supervisor.Valid() && supervisor.Shown().phase == Verified && supervisor.issued == old(supervisor.issued) + 1
    ensures supervisor.effects == old(supervisor.effects)
              + [Clear(old(supervisor.issued), supervisor.clock),
                 Queue(old(supervisor.issued), out.found.value.identity, supervisor.clock, true)]
  {
    hide Disciplined, Behind;
    for i := 0 to 4
      invariant supervisor.Valid() && supervisor.boot == supervisor.home && !supervisor.file.Visible().residue
      invariant supervisor.clock == old(supervisor.clock)
      invariant supervisor.issued == old(supervisor.issued) + if i == 0 then 0 else 1
      invariant i > 0 ==> supervisor.Shown().package == old(supervisor.issued)
      invariant supervisor.Shown().started == if i < 2 then supervisor.Shown().started else Some(supervisor.clock)
      invariant i == 0 ==> supervisor.Shown().phase in {Monitoring, WaitingRelease, Verified}
      invariant i == 1 ==> supervisor.Shown().phase == WaitingIdle && supervisor.Shown().started.None?
      invariant i == 2 ==> supervisor.Shown().phase == WaitingTitle
      invariant i == 3 ==> supervisor.Shown().phase == WaitingFresh
      invariant i == 4 ==> supervisor.Shown().phase == Verified
      invariant supervisor.effects == old(supervisor.effects)
                  + (if i < 2 then [] else [Clear(old(supervisor.issued), supervisor.clock)])
                  + (if i < 3 then []
                     else [Queue(old(supervisor.issued), out.found.value.identity, supervisor.clock, true)])
    {
      var _ := supervisor.Step(out);
    }
  }
}

/**
 Epochs of the orchestration journal: sealed reset packages, bootstrap into a fresh
 context, acknowledgement, and maintenance recovery, over two durable files that
 are written one after the other.
 */
module Epochs {
  import opened Wrappers
  import opened Records

  datatype Package = Package(number: nat, previous: nat, automatic: bool)

  datatype Recovery = Recovery(authority: nat, failedReset: Option<Package>)

  /** The journal. `credits` lists the packages whose consumption this state counts. */
  datatype State = State(
    session: nat, epoch: nat, epochStart: nat, completed: set<string>, reviews: map<string, nat>,
    admission: Option<nat>, reset: Option<Package>, requested: bool,
    pendingBootstrap: Option<nat>, lastBootstrap: Option<Package>, awaiting: bool, receipt: Option<nat>,
    pendingReceipt: Option<nat>,
    maintenanceOnly: bool, pendingMaintenance: Option<nat>, recovery: Option<Recovery>, recoveries: seq<Recovery>,
    credits: seq<nat>)

  /** The routing file: the orchestrator's row, the other sessions, and the pause. */
  datatype Control = Control(session: nat, transcript: nat, others: set<nat>, notified: nat, paused: bool)

  function Routed(c: Control, session: nat, transcript: nat): Control {
    c.(session := session, transcript := transcript, notified := if c.notified == c.session then session else c.notified)
  }

  /** The orchestrator's row is another session with its transcript; the notifications follow it if they were its own. */
  predicate Moved(c: Control, c': Control, session: nat, transcript: nat) {
    && c'.session == session && c'.transcript == transcript && c'.others == c.others && c'.paused == c.paused
    && (c.notified == c.session ==> c'.notified == session)
    && (c.notified != c.session ==> c'.notified == c.notified)
  }

  // Epoch credit.

  /** As many distinct packages as epochs, and the pending package is none of them. */
  predicate Credited(s: State, issued: nat) {
    && |s.credits| == s.epoch
    && (forall i :: 0 <= i < |s.credits| ==> s.credits[i] < issued)
    && (forall i, j :: 0 <= i < j < |s.credits| ==> s.credits[i] != s.credits[j])
    && (s.reset.Some? ==> s.reset.value.number < issued && s.reset.value.number !in s.credits)
  }

  /** One write: the epoch stays, or it grows by one and consumes the pending package. */
  predicate Counts(s: State, s': State) {
    || (s'.epoch == s.epoch && s'.credits == s.credits && s'.epochStart == s.epochStart)
    || (s'.epoch == s.epoch + 1 && s.reset.Some? && s'.credits == s.credits + [s.reset.value.number]
        && s'.reset.None? && s'.epochStart == |s.completed|)
  }

  /** What an acknowledged fresh context makes of the journal. */
  function Consumed(s: State, session: nat): State
    requires s.reset.Some?
  {
    s.(session := session, epoch := s.epoch + 1, epochStart := |s.completed|, reset := None, pendingBootstrap := None,
       requested := false, credits := s.credits + [s.reset.value.number])
  }

  /** Work and earlier recoveries stay on record. */
  predicate Untouched(s: State, s': State) {
    && s'.completed == s.completed && s'.reviews == s.reviews && s'.recoveries == s.recoveries && s'.recovery == s.recovery
    && s'.pendingMaintenance == s.pendingMaintenance
  }

  /** An acknowledged reset: the fresh context is the session, one epoch on, and nothing of the reset is left pending. */
  predicate Acknowledged(s: State, s': State, session: nat, manifest: Package, receipt: nat) {
    && s.reset == Some(manifest) && s.pendingBootstrap == Some(session) && s.lastBootstrap == Some(manifest)
    && s'.session == session && s'.epoch == s.epoch + 1 && s'.epochStart == |s.completed|
    && s'.credits == s.credits + [manifest.number]
    && s'.reset.None? && !s'.requested && s'.pendingBootstrap.None? && !s'.awaiting && !s'.maintenanceOnly
    && s'.receipt == Some(receipt) && s'.pendingReceipt.None?
    && s'.admission == s.admission && s'.lastBootstrap == s.lastBootstrap && Untouched(s, s')
  }

  /** A fresh context may take over: it is another one than before, nobody else's, and the one an earlier attempt named. */
  predicate Fits(s: State, c: Control, session: nat) {
    && s.reset.Some? && session != s.reset.value.previous && session !in c.others
    && s.pendingBootstrap in {None, Some(session)} && c.session in {s.session, session}
  }

  /** The journal waits for the receipt of this very reset. */
  predicate Awaits(s: State, session: nat, manifest: Package, epoch: nat) {
    s.reset == s.lastBootstrap == Some(manifest) && s.pendingBootstrap == Some(session) && epoch == s.epoch + 1
  }

  /** A bootstrap: provisional until acknowledged when automatic, consumed at once otherwise. */
  predicate Bootstrapped(s: State, s': State, session: nat) {
    && s.reset.Some? && session != s.reset.value.previous && s'.lastBootstrap == s.reset
    && s'.admission.None? && s'.receipt.None? && Untouched(s, s')
    && s'.maintenanceOnly == s.maintenanceOnly && s'.pendingReceipt == s.pendingReceipt
    && (if s.reset.value.automatic then
          s'.session == s.session && s'.epochStart == s.epochStart && s'.credits == s.credits && s'.requested == s.requested
        else
          s'.epochStart == |s.completed| && s'.credits == s.credits + [s.reset.value.number] && !s'.requested
          && s'.pendingBootstrap.None?)
    && (if s.reset.value.automatic then
          s'.epoch == s.epoch && s'.reset == s.reset && s'.awaiting && s'.pendingBootstrap == Some(session)
        else s'.epoch == s.epoch + 1 && s'.reset.None? && !s'.awaiting && s'.session == session)
  }

  lemma RoutedMoves(c: Control, session: nat, transcript: nat)
    ensures Moved(c, Routed(c, session, transcript), session, transcript)
  {
  }

  lemma Bootstraps(s: State, session: nat)
    requires s.reset.Some? && session != s.reset.value.previous
    ensures var next := s.(pendingBootstrap := Some(session), receipt := None, admission := None,
                           awaiting := s.reset.value.automatic, lastBootstrap := s.reset);
            Bootstrapped(s, if s.reset.value.automatic then next else Consumed(next, session), session)
  {
  }

  lemma ConsumedCounts(s: State, session: nat, issued: nat)
    requires Credited(s, issued) && s.reset.Some?
    ensures Credited(Consumed(s, session), issued) && Counts(s, Consumed(s, session))
  {
  }

  lemma SameCounts(s: State, s': State, issued: nat)
    requires Credited(s, issued)
    requires s'.epoch == s.epoch && s'.credits == s.credits && s'.epochStart == s.epochStart && s'.reset == s.reset
    ensures Credited(s', issued) && Counts(s, s')
  {
  }

  lemma CountsAgree(s: State, s': State, s'': State)
    requires s'.epoch == s.epoch && s'.credits == s.credits && s'.epochStart == s.epochStart && s'.reset == s.reset
    requires s'.completed == s.completed && Counts(s', s'')
    ensures Counts(s, s'')
  {
  }

  // Maintenance recovery.

  /** A bound recovery authority: the failed journal and routing it was granted for, and the context that takes over. */
  datatype Grant = Grant(binding: nat, failed: State, frozen: Control, session: nat, transcript: nat, currentAuthority: bool)

  /** An authority binds the failed journal by its hash, so that journal cannot name the authority. */
  predicate Acyclic(g: Grant) {
    && (g.failed.recovery.Some? ==> g.failed.recovery.value.authority != g.binding)
    && g.failed.pendingMaintenance.None?
  }

  function Intended(g: Grant): State {
    g.failed.(pendingMaintenance := Some(g.binding))
  }

  function Recovered(g: Grant): State {
    var f := g.failed;
    f.(session := g.session, reset := None, requested := true, admission := None, maintenanceOnly := true,
       pendingMaintenance := None, pendingBootstrap := None, pendingReceipt := None, awaiting := false,
       recoveries := if f.recovery.Some? then f.recoveries + [f.recovery.value] else f.recoveries,
       recovery := Some(Recovery(g.binding, f.reset)))
  }

  function Expected(g: Grant): Control {
    Routed(g.frozen, g.session, g.transcript)
  }

  predicate Applied(s: State, g: Grant) {
    s.recovery.Some? && s.recovery.value.authority == g.binding
  }

  /** A journal after recovery: maintenance only, a reset is asked for, nothing is pending, the granted session is
      in charge, the failed reset and the earlier recovery are on record, and no counter moved. */
  predicate Mended(s: State, s': State, g: Grant) {
    && s'.maintenanceOnly && s'.requested && s'.session == g.session
    && s'.reset.None? && s'.admission.None? && s'.pendingMaintenance.None? && s'.pendingBootstrap.None?
    && s'.pendingReceipt.None? && !s'.awaiting
    && s'.recovery == Some(Recovery(g.binding, s.reset))
    && (s.recovery.None? ==> s'.recoveries == s.recoveries)
    && (s.recovery.Some? ==> s'.recoveries == s.recoveries + [s.recovery.value])
    && s'.epoch == s.epoch && s'.epochStart == s.epochStart && s'.credits == s.credits
    && s'.completed == s.completed && s'.reviews == s.reviews
    && s'.lastBootstrap == s.lastBootstrap && s'.receipt == s.receipt
  }

  /** What a finished recovery did to what the files showed: nothing if it had been applied before. */
  predicate Mends(s: State, c: Control, s': State, c': Control, g: Grant) {
    if s.recovery.Some? && s.recovery.value.authority == g.binding then s' == s && c' == c && c.session == g.session == s.session
    else
      && Mended(s, s', g) && Moved(g.frozen, c', g.session, g.transcript)
      && s == g.failed.(pendingMaintenance := s.pendingMaintenance) && s.pendingMaintenance in {None, Some(g.binding)}
      && (c == g.frozen || c == c') && g.session !in c.others && (c.paused || g.currentAuthority)
      && (g.frozen.session == g.failed.session || Some(g.frozen.session) == g.failed.pendingBootstrap)
  }

  lemma UninterruptedAdmits(s: State, c: Control, g: Grant)
    ensures Uninterrupted(s, c, g).Some? <==> Admits(s, c, g)
  {
  }

  lemma UninterruptedMends(s: State, c: Control, g: Grant)
    requires Uninterrupted(s, c, g).Some? && g.failed.pendingMaintenance.None?
    ensures Mends(s, c, Uninterrupted(s, c, g).value.0, Uninterrupted(s, c, g).value.1, g)
  {
  }

  /** What the two files must show. */
  predicate Admits(s: State, c: Control, g: Grant) {
    && (s.pendingMaintenance.Some? ==> s.pendingMaintenance.value == g.binding)
    && (if Applied(s, g) then s.session == g.session && c == Expected(g)
        else if s.pendingMaintenance.None? then s == g.failed else s == Intended(g))
    && (g.frozen.session == g.failed.session || Some(g.frozen.session) == g.failed.pendingBootstrap)
    && (c.paused || g.currentAuthority) && (c == g.frozen || c == Expected(g)) && g.session !in c.others
  }

  /** What a run that nothing interrupts makes of the two files. */
  function Uninterrupted(s: State, c: Control, g: Grant): Option<(State, Control)> {
    if !Admits(s, c, g) then None
    else if Applied(s, g) then Some((s, c))
    else Some((Recovered(g), Expected(g)))
  }

  /**
   The states a recovery may leave behind. The routing is moved before the journal is; but an intent that was seen
   before its directory was synced may be lost after the routing has moved.
   */
  predicate Midway(s: State, c: Control, g: Grant) {
    || ((s == g.failed || s == Intended(g)) && (c == g.frozen || c == Expected(g)))
    || (s == Recovered(g) && c == Expected(g))
  }

  /** Wherever the first run stopped, a rerun ends where it would have ended, with every counter as it was. */
  lemma RerunAgrees(s: State, c: Control, g: Grant)
    requires Acyclic(g) && Uninterrupted(g.failed, g.frozen, g).Some? && Midway(s, c, g)
    ensures Uninterrupted(s, c, g) == Uninterrupted(g.failed, g.frozen, g) == Some((Recovered(g), Expected(g)))
    ensures Recovered(g).epoch == g.failed.epoch && Recovered(g).epochStart == g.failed.epochStart
    ensures Recovered(g).completed == g.failed.completed && Recovered(g).reviews == g.failed.reviews
    ensures Recovered(g).credits == g.failed.credits
  {
  }

  datatype Outcome = Finished | Raise | Crash

  function Failure(w: Wrote): Outcome {
    if w.Died? then Crash else Raise
  }

  class Loop {
    const journal: Record<State>
    const control: Record<Control>
    var issued: nat

    ghost predicate Valid()
      reads this, journal, control
    {
      && journal.Valid() && control.Valid()
      && forall e <- journal.pending :: e.canonical.Some? ==> Credited(e.canonical.value, issued)
    }

    constructor (initial: State, routing: Control)
      requires initial.epoch == 0 && initial.credits == [] && initial.reset.None?
      ensures Valid() && fresh(journal) && fresh(control)
    {
      journal := new Record();
      control := new Record();
      issued := 0;
      new;
      journal.pending := [Entry(Some(initial), false)];
      control.pending := [Entry(Some(routing), false)];
    }

    /** The epochs and packages only move as `Counts` allows, from what was visible. */
    twostate predicate Moves()
      requires old(journal.Valid())
      reads this, journal
    {
      forall e <- journal.pending :: e in old(journal.pending) || e.canonical.None? ||
        (old(journal.Visible().canonical.Some?) && Counts(old(journal.Visible().canonical.value), e.canonical.value))
    }

    method Save(s: State, fate: Fate) returns (w: Wrote)
      requires Valid() && Credited(s, issued)
      modifies journal
      ensures Valid() && (!old(journal.Visible()).residue && fate == Synced(false) ==> w.Written?)
      ensures w.Written? ==> journal.pending == [Entry(Some(s), false)]
      ensures forall e <- journal.pending :: e in old(journal.pending) || e.canonical.None? || e.canonical.value == s
    {
      w := journal.Write(s, fate);
    }

    /** Seals a package that no state has named before. */
    method Prepare(automatic: bool, previous: nat, accepted: bool, fate: Fate) returns (r: Outcome)
      requires Valid()
      modifies this, journal
      ensures Valid() && Moves()
      ensures r.Finished? ==>
                && old(journal.Visible().canonical.Some?)
                && journal.pending == [Entry(Some(old(journal.Visible().canonical.value).(
                     reset := Some(Package(old(issued), previous, automatic)), admission := None)), false)]
      ensures accepted && fate == Synced(false) && old(journal.Visible().canonical.Some?) ==> r.Finished?
    {
      var seen := journal.Visible().canonical;
      if seen.None? || !accepted {
        return Raise;
      }
      var s := seen.value;
      assert Credited(s, issued);
      var package := Package(issued, previous, automatic);
      issued := issued + 1;
      var w := Save(s.(reset := Some(package), admission := None), fate);
      r := if w.Written? then Finished else Failure(w);
    }

    /** Work completes between resets; it counts towards the epoch, never as one. */
    method Complete(ticket: string, accepted: bool, fate: Fate) returns (r: Outcome)
      requires Valid()
      modifies journal
      ensures Valid() && Moves()
      ensures accepted && fate == Synced(false) && old(journal.Visible().canonical.Some?) ==>
                && r.Finished?
                && journal.pending == [Entry(Some(old(journal.Visible().canonical.value).(
                     completed := old(journal.Visible().canonical.value).completed + {ticket}, admission := None)), false)]
    {
      var seen := journal.Visible().canonical;
      if seen.None? || !accepted {
        return Raise;
      }
      var s := seen.value;
      assert Credited(s, issued);
      var w := Save(s.(completed := s.completed + {ticket}, admission := None), fate);
      r := if w.Written? then Finished else Failure(w);
    }

    /** Moves the routing to the fresh context; only a manual reset earns its epoch here. */
    method Bootstrap(session: nat, transcript: nat, accepted: bool, fates: Fates) returns (r: Outcome)
      requires Valid()
      modifies journal, control
      ensures Valid() && Moves()
      ensures r.Finished? ==>
                && old(journal.Visible().canonical.Some? && control.Visible().canonical.Some?)
                && journal.Visible().canonical.Some?
                && Bootstrapped(old(journal.Visible().canonical.value), journal.Visible().canonical.value, session)
                && control.Visible().canonical.Some?
                && Moved(old(control.Visible().canonical.value), control.Visible().canonical.value, session, transcript)
      ensures (accepted && fates == Fates(Synced(false), Synced(false), Synced(false))
               && old(journal.Visible().canonical.Some? && control.Visible().canonical.Some?)
               && old(Fits(journal.Visible().canonical.value, control.Visible().canonical.value, session))) ==> r.Finished?
    {
      hide Credited, Counts, Moved, Routed, Bootstrapped;
      var seen, routing := journal.Visible().canonical, control.Visible().canonical;
      if seen.None? || routing.None? || seen.value.reset.None? || !accepted {
        return Raise;
      }
      var (s, c) := (seen.value, routing.value);
      assert Credited(s, issued);
      var package := s.reset.value;
      if session == package.previous || session in c.others
        || (s.pendingBootstrap.Some? && s.pendingBootstrap.value != session)
        || (c.session != s.session && c.session != session) {
        return Raise;
      }
      RoutedMoves(c, session, transcript);
      Bootstraps(s, session);
      var pending := s.(pendingBootstrap := Some(session), receipt := None);
      SameCounts(s, pending, issued);
      var w := Save(pending, fates.intent);
      if !w.Written? {
        return Failure(w);
      }
      w := control.Write(Routed(c, session, transcript), fates.routing);
      if !w.Written? {
        return Failure(w);
      }
      var next := pending.(admission := None, awaiting := package.automatic, lastBootstrap := Some(package));
      SameCounts(s, next, issued);
      ConsumedCounts(next, session, issued);
      CountsAgree(s, next, Consumed(next, session));
      w := Save(if package.automatic then next else Consumed(next, session), fates.journal);
      r := if w.Written? then Finished else Failure(w);
    }

    /** Accepts the receipt of an automatic reset: the one place where its epoch is earned. */
    method Acknowledge(
      session: nat, manifest: Package, epoch: nat, receipt: nat, accepted: bool, inTime: bool, first: Fate, second: Fate)
      returns (r: Outcome)
      requires Valid()
      modifies journal
      ensures Valid() && Moves()
      ensures r.Finished? ==>
                && old(journal.Visible().canonical.Some?) && old(journal.Visible().canonical.value).reset == Some(manifest)
                && |journal.pending| == 1 && journal.Visible().canonical.Some? && !journal.Visible().residue
                && Acknowledged(old(journal.Visible().canonical.value), journal.Visible().canonical.value, session, manifest, receipt)
                && epoch == old(journal.Visible().canonical.value).epoch + 1
      ensures (accepted && inTime && first == second == Synced(false) && old(journal.Visible().canonical.Some?)
               && old(Awaits(journal.Visible().canonical.value, session, manifest, epoch))) ==> r.Finished?
    {
      var seen := journal.Visible().canonical;
      if seen.None? {
        return Raise;
      }
      var s := seen.value;
      assert Credited(s, issued);
      if s.pendingBootstrap != Some(session) || s.lastBootstrap != Some(manifest) || epoch != s.epoch + 1
        || s.reset != Some(manifest) || !accepted {
        return Raise;
      }
      // The receipt is named first; the decision follows the last reading of the clock.
      var w := Save(s.(pendingReceipt := Some(receipt)), first);
      if !w.Written? {
        return Failure(w);
      }
      if !inTime {
        return Raise;
      }
      ConsumedCounts(s, session, issued);
      w := Save(Consumed(s, session).(
                  receipt := Some(receipt), pendingReceipt := None, awaiting := false, maintenanceOnly := false), second);
      r := if w.Written? then Finished else Failure(w);
    }

    /** Finishes exactly as an uninterrupted run from what the files showed, whatever interrupted runs before it. */
    method Recover(g: Grant) returns (r: Outcome)
      requires Valid() && Acyclic(g)
      modifies journal, control
      ensures Valid() && Moves()
      ensures r.Finished? ==>
                && old(journal.Visible().canonical.Some? && control.Visible().canonical.Some?)
                && journal.Visible().canonical.Some? && control.Visible().canonical.Some?
                && Uninterrupted(old(journal.Visible().canonical.value), old(control.Visible().canonical.value), g)
                   == Some((journal.Visible().canonical.value, control.Visible().canonical.value))
                && Mends(old(journal.Visible().canonical.value), old(control.Visible().canonical.value),
                         journal.Visible().canonical.value, control.Visible().canonical.value, g)
      ensures old(Underway(journal.pending, control.pending, g)) ==> Underway(journal.pending, control.pending, g)
    {
      var evidence: bool := Oracle();
      var fates: Fates := Oracle();
      if !evidence {
        return Raise;
      }
      r := RecoverAs(g, fates);
    }

    /** The same, when the evidence is accepted and each write fares as given. */
    method RecoverAs(g: Grant, fates: Fates) returns (r: Outcome)
      requires Valid() && Acyclic(g)
      modifies journal, control
      ensures Valid() && Moves()
      ensures (journal.pending, control.pending) == Recovering(old(journal.pending), old(control.pending), g, fates)
      ensures (fates == Fates(Synced(false), Synced(false), Synced(false))
               && old(journal.Visible().canonical.Some? && control.Visible().canonical.Some?)
               && Uninterrupted(old(journal.Visible().canonical.value), old(control.Visible().canonical.value), g).Some?)
              ==> r.Finished?
      ensures r.Finished? ==>
                && old(journal.Visible().canonical.Some? && control.Visible().canonical.Some?)
                && journal.Visible().canonical.Some? && control.Visible().canonical.Some?
                && Uninterrupted(old(journal.Visible().canonical.value), old(control.Visible().canonical.value), g)
                   == Some((journal.Visible().canonical.value, control.Visible().canonical.value))
                && Mends(old(journal.Visible().canonical.value), old(control.Visible().canonical.value),
                         journal.Visible().canonical.value, control.Visible().canonical.value, g)
      ensures old(Underway(journal.pending, control.pending, g)) ==> Underway(journal.pending, control.pending, g)
    {
      hide Credited, Counts, Admits, Uninterrupted, Recovered, Expected, Intended, Underway, Mends;
      var seen, routing := journal.Visible().canonical, control.Visible().canonical;
      if seen.None? || routing.None? {
        return Raise;
      }
      var s := seen.value;
      UninterruptedAdmits(s, routing.value, g);
      var admitted := Vet(s, routing.value, g);
      if !admitted {
        return Raise;
      }
      assert Credited(s, issued);
      Admitted(s, routing.value, g, issued);
      UninterruptedMends(s, routing.value, g);
      if Applied(s, g) {
        return Finished;
      }
      if s.pendingMaintenance.None? {
        if Underway(journal.pending, control.pending, g) {
          IntentUnderway(journal.pending, control.pending, g, fates.intent);
        }
        var w := journal.Write(Intended(g), fates.intent);
        if !w.Written? {
          return Failure(w);
        }
      }
      r := Transfer(g, fates);
    }

    /** The intent, the journal, the routing and the identities, as a recovery must find them. */
    method Vet(s: State, c: Control, g: Grant) returns (ok: bool)
      ensures ok <==> Admits(s, c, g)
    {
      hide Expected;
      var applied := s.recovery.Some? && s.recovery.value.authority == g.binding;
      if s.pendingMaintenance.Some? && s.pendingMaintenance != Some(g.binding) {
        return false;
      }
      if applied {
        if s.session != g.session {
          return false;
        }
      } else if s.pendingMaintenance.None? {
        if s != g.failed {
          return false;
        }
      } else if s != g.failed.(pendingMaintenance := Some(g.binding)) {
        return false;
      }
      ok := VetRouting(c, g, applied);
    }

    method VetRouting(c: Control, g: Grant, applied: bool) returns (ok: bool)
      ensures ok <==>
              && (g.frozen.session == g.failed.session || Some(g.frozen.session) == g.failed.pendingBootstrap)
              && (c.paused || g.currentAuthority) && (c == g.frozen || c == Expected(g)) && g.session !in c.others
              && (applied ==> c == Expected(g))
    {
      if g.frozen.session != g.failed.session && Some(g.frozen.session) != g.failed.pendingBootstrap {
        return false;
      }
      var notified := if g.frozen.notified == g.frozen.session then g.session else g.frozen.notified;
      var expected := g.frozen.(session := g.session, transcript := g.transcript, notified := notified);
      if (!c.paused && !g.currentAuthority) || (c != g.frozen && c != expected) || g.session in c.others {
        return false;
      }
      return !applied || c == expected;
    }

    /** The two publications behind the durable intent. */
    method Transfer(g: Grant, fates: Fates) returns (r: Outcome)
      requires Valid() && Credited(Recovered(g), issued)
      requires journal.Visible() == Entry(Some(Intended(g)), false)
      requires control.Visible().canonical == Some(g.frozen) || control.Visible().canonical == Some(Expected(g))
      modifies journal, control
      ensures Valid()
      ensures fates.routing == fates.journal == Synced(false) ==> r.Finished?
      ensures (journal.pending, control.pending) == Transferring(old(journal.pending), old(control.pending), g, fates)
      ensures forall e <- journal.pending :: e in old(journal.pending) || e.canonical.None? || e.canonical.value == Recovered(g)
      ensures old(Underway(journal.pending, control.pending, g)) ==> Underway(journal.pending, control.pending, g)
      ensures r.Finished? ==>
                journal.Visible().canonical == Some(Recovered(g)) && control.Visible().canonical == Some(Expected(g))
    {
      var w := control.Write(Expected(g), fates.routing);
      if !w.Written? {
        return Failure(w);
      }
      w := journal.Write(Recovered(g), fates.journal);
      r := if w.Written? then Finished else Failure(w);
    }
  }

  /** What a recovery that may go on has before it. */
  lemma Admitted(s: State, c: Control, g: Grant, issued: nat)
    requires Admits(s, c, g) && Acyclic(g) && Credited(s, issued)
    ensures if Applied(s, g) then Uninterrupted(s, c, g) == Some((s, c))
            else Uninterrupted(s, c, g) == Some((Recovered(g), Expected(g)))
                 && (s.pendingMaintenance.Some? ==> s == Intended(g)) && (c == g.frozen || c == Expected(g))
                 && Credited(Intended(g), issued) && Credited(Recovered(g), issued)
                 && Counts(s, Intended(g)) && Counts(s, Recovered(g))
  {
    hide Routed, Expected;
  }

  lemma IntentUnderway(j: seq<Entry<State>>, c: seq<Entry<Control>>, g: Grant, fate: Fate)
    requires Underway(j, c, g) && j != [] && Acyclic(g)
    ensures Underway(After(j, Intended(g), fate).0, c, g)
  {
  }

  /** How the writes of one recovery fare. */
  datatype Fates = Fates(intent: Fate, routing: Fate, journal: Fate)

  function Transferring(j: seq<Entry<State>>, c: seq<Entry<Control>>, g: Grant, fates: Fates)
    : (seq<Entry<State>>, seq<Entry<Control>>)
    requires j != [] && c != []
  {
    var (c', w) := After(c, Expected(g), fates.routing);
    if w.Written? then (After(j, Recovered(g), fates.journal).0, c') else (j, c')
  }

  /** What a recovery leaves of the two files. */
  function Recovering(j: seq<Entry<State>>, c: seq<Entry<Control>>, g: Grant, fates: Fates)
    : (seq<Entry<State>>, seq<Entry<Control>>)
    requires j != [] && c != []
  {
    var (s, r) := (j[|j| - 1].canonical, c[|c| - 1].canonical);
    if s.None? || r.None? || !Admits(s.value, r.value, g) || Applied(s.value, g) then (j, c)
    else if s.value.pendingMaintenance.Some? then Transferring(j, c, g, fates)
    else
      var (j', w) := After(j, Intended(g), fates.intent);
      if w.Written? then Transferring(j', c, g, fates) else (j', c)
  }

  /**
   The routing moved without an intent: a recovery stops before its intent is synced, the next one sees the intent,
   moves the routing and stops, and a loss of power takes the intent back. A rerun still ends as it should.
   */
  method LoseIntent(loop: Loop, g: Grant)
    requires loop.Valid() && Acyclic(g) && Uninterrupted(g.failed, g.frozen, g).Some?
    requires loop.journal.pending == [Entry(Some(g.failed), false)] && loop.control.pending == [Entry(Some(g.frozen), false)]
    modifies loop.journal, loop.control
    ensures loop.Valid()
    ensures loop.journal.pending == [Entry(Some(g.failed), false)]
    ensures loop.control.pending == [Entry(Some(Expected(g)), false)]
    ensures Uninterrupted(g.failed, Expected(g), g) == Some((Recovered(g), Expected(g)))
  {
    hide Credited, Counts, Recovered, Expected, Admits;
    RerunAgrees(g.failed, g.frozen, g);
    RerunAgrees(Intended(g), g.frozen, g);
    RerunAgrees(g.failed, Expected(g), g);
    Unapplied(g);
    var _ := loop.RecoverAs(g, Fates(Unsynced(true), Unwritten, Unwritten));
    var _ := loop.RecoverAs(g, Fates(Unwritten, Synced(true), Unwritten));
    loop.journal.Revert(0);
  }

  lemma Unapplied(g: Grant)
    requires Acyclic(g)
    ensures !Applied(g.failed, g) && !Applied(Intended(g), g)
    ensures g.failed.pendingMaintenance.None? && Intended(g).pendingMaintenance.Some?
  {
  }

  /** What a restart may find in the two files; the moved journal only ever beside the moved routing. */
  ghost predicate Underway(journal: seq<Entry<State>>, control: seq<Entry<Control>>, g: Grant) {
    && (forall e <- journal :: e.canonical.Some? ==> e.canonical.value in {g.failed, Intended(g), Recovered(g)})
    && (forall f <- control :: f.canonical.Some? ==> f.canonical.value in {g.frozen, Expected(g)})
    && (forall e <- journal, f <- control :: e.canonical == Some(Recovered(g)) && f.canonical.Some? ==>
          f.canonical.value == Expected(g))
  }

  /** Any number of attempts, each of which may stop anywhere, with losses of power between them. */
  method AnyRecovery(loop: Loop, g: Grant, attempts: nat) returns (finished: bool)
    requires loop.Valid() && Acyclic(g) && Uninterrupted(g.failed, g.frozen, g).Some?
    requires loop.journal.pending == [Entry(Some(g.failed), false)] && loop.control.pending == [Entry(Some(g.frozen), false)]
    modifies loop.journal, loop.control
    ensures loop.Valid() && Underway(loop.journal.pending, loop.control.pending, g)
    ensures finished ==>
              loop.journal.Visible().canonical == Some(Recovered(g)) && loop.control.Visible().canonical == Some(Expected(g))
  {
    hide Credited, Uninterrupted, Counts, Recovered, Expected;
    Unmended(g);
    for i := 0 to attempts
      invariant loop.Valid() && Underway(loop.journal.pending, loop.control.pending, g)
    {
      if * {
        loop.journal.LosePower();
      } else if * {
        loop.control.LosePower();
      } else {
        ghost var (e, f) := (loop.journal.Visible(), loop.control.Visible());
        var r := loop.Recover(g);
        if r.Finished? {
          RerunAgrees(e.canonical.value, f.canonical.value, g);
          return true;
        }
      }
    }
    finished := false;
  }

  lemma Unmended(g: Grant)
    requires Acyclic(g)
    ensures g.failed != Recovered(g)
  {
  }

  /** An automatic reset that nothing stops, from its package to its receipt: one epoch, for its own package. */
  method Reset(loop: Loop, previous: nat, session: nat, transcript: nat, receipt: nat) returns (r: Outcome)
    requires loop.Valid() && loop.journal.Visible().canonical.Some? && loop.control.Visible().canonical.Some?
    requires var (s, c) := (loop.journal.Visible().canonical.value, loop.control.Visible().canonical.value);
             s.pendingBootstrap.None? && session != previous && session !in c.others && c.session == s.session
    modifies loop, loop.journal, loop.control
    ensures loop.Valid() && r.Finished? && loop.journal.Visible().canonical.Some? && loop.control.Visible().canonical.Some?
    ensures var (s, s') := (old(loop.journal.Visible().canonical.value), loop.journal.Visible().canonical.value);
            && s'.epoch == s.epoch + 1 && s'.credits == s.credits + [old(loop.issued)] && s'.epochStart == |s.completed|
            && s'.session == session == loop.control.Visible().canonical.value.session && s'.reset.None?
            && !s'.awaiting && !s'.maintenanceOnly && s'.receipt == Some(receipt)
  {
    hide Credited, Counts;
    var package := Package(loop.issued, previous, true);
    r := loop.Prepare(true, previous, true, Synced(false));
    var s := loop.journal.Visible().canonical.value;
    r := loop.Bootstrap(session, transcript, true, Fates(Synced(false), Synced(false), Synced(false)));
    r := loop.Acknowledge(session, package, s.epoch + 1, receipt, true, true, Synced(false), Synced(false));
  }

  /** Every epoch of every reachable journal consumed its own package, whatever crashed in between. */
  method AnyRun(loop: Loop, steps: nat)
    requires loop.Valid()
    modifies loop, loop.journal, loop.control
    ensures loop.Valid()
  {
    hide Credited, Counts, Uninterrupted;
    for i := 0 to steps
      invariant loop.Valid()
    {
      var session: nat := Oracle();
      var number: nat := Oracle();
      var automatic: bool := Oracle();
      var accepted: bool := Oracle();
      var fates: Fates := Oracle();
      if * {
        var _ := loop.Prepare(automatic, session, accepted, fates.intent);
      } else if * {
        var _ := loop.Bootstrap(session, number, accepted, fates);
      } else if * {
        var manifest: Package := Oracle();
        var receipt: nat := Oracle();
        var inTime: bool := Oracle();
        var _ := loop.Acknowledge(session, manifest, number, receipt, accepted, inTime, fates.intent, fates.journal);
      } else if * {
        var ticket: string := Oracle();
        var _ := loop.Complete(ticket, accepted, fates.journal);
      } else if * {
        var g: Grant := Oracle();
        if Acyclic(g) {
          var _ := loop.Recover(g);
        }
      } else if * {
        loop.journal.LosePower();
      } else {
        loop.control.LosePower();
      }
    }
  }
}

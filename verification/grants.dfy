/**
 Grants of one ticket over the tracker's changing data. A grant stands on a
 fingerprint of everything reachable from its ticket and goal, and is moved along
 only by the run's own transitions. Anyone may change the tracker at any moment.
 */
module Grants {
  import opened Wrappers
  import opened Reachability

  datatype Kind = ParentChild | Blocks | Related

  datatype Relation = Relation(src: Id, dst: Id, kind: Kind)

  /** The two kinds of relation that bind one issue to another. */
  function Edges(relations: set<Relation>): set<Edge> {
    set r | r in relations && r.kind != Related :: Edge(r.src, r.dst)
  }

  /** A ticket is denied exactly when it is bound, directly or not, to a quarantined one. */
  method ExcludedScope(relations: set<Relation>, quarantined: set<Id>) returns (excluded: set<Id>)
    ensures forall x :: x in excluded <==> exists q <- quarantined :: Reaches(Edges(relations), {x}, q)
  {
    hide Reaches, Closure;
    var back := Backwards(Edges(relations));
    excluded := Scope(back, quarantined);
    forall x
      ensures x in excluded <==> exists q <- quarantined :: Reaches(Edges(relations), {x}, q)
    {
      ReachesFromOne(back, quarantined, x);
      forall q <- quarantined
        ensures Reaches(Edges(relations), {x}, q) <==> Reaches(back, {q}, x)
      {
        BackwardsReaches(Edges(relations), x, q);
      }
    }
  }

  // The tracker's data and its fingerprint.

  /** The four fields that a ticket's own progress changes, and everything else about it. */
  datatype Issue = Issue(status: string, assignee: string, updatedAt: string, closedAt: string, rest: string)

  datatype Comment = Comment(issue: Id, body: string)

  datatype Data = Data(issues: map<Id, Issue>, comments: map<Id, Comment>, relations: set<Relation>)

  /** What is hashed, with the hash taken to tell any two of them apart. */
  datatype Print = Print(issues: map<Id, Issue>, comments: map<Id, Comment>, relations: set<Relation>)

  function ScopeOf(d: Data, ticket: Id, goal: Id): set<Id> {
    Closure(Edges(d.relations), {ticket, goal})
  }

  function Touching(relations: set<Relation>, scope: set<Id>): set<Relation> {
    set r | r in relations && (r.src in scope || r.dst in scope)
  }

  function Fingerprint(d: Data, ticket: Id, goal: Id): Print {
    var scope := ScopeOf(d, ticket, goal);
    Print(map i | i in d.issues && i in scope :: d.issues[i],
          map c | c in d.comments && d.comments[c].issue in scope :: d.comments[c],
          Touching(d.relations, scope))
  }

  /** A missing progress field; every ticket looks the same through it. */
  function Blanked(i: Issue): Issue {
    i.(status := "", assignee := "", updatedAt := "", closedAt := "")
  }

  /** The data without the ticket's own progress: its four fields, and its comments beyond the known ones. */
  function Beside(d: Data, ticket: Id, known: set<Id>): Data {
    d.(issues := map i | i in d.issues :: if i == ticket then Blanked(d.issues[i]) else d.issues[i],
       comments := map c | c in d.comments && (d.comments[c].issue != ticket || c in known) :: d.comments[c])
  }

  /** The relations that are hashed determine the scope that they were selected by. */
  lemma TouchingDeterminesScope(a: set<Relation>, b: set<Relation>, roots: set<Id>)
    requires Touching(a, Closure(Edges(a), roots)) == Touching(b, Closure(Edges(b), roots))
    ensures Closure(Edges(a), roots) == Closure(Edges(b), roots)
  {
    TouchingDeterminesOneWay(a, b, roots);
    TouchingDeterminesOneWay(b, a, roots);
  }

  lemma TouchingDeterminesOneWay(a: set<Relation>, b: set<Relation>, roots: set<Id>)
    requires Touching(a, Closure(Edges(a), roots)) == Touching(b, Closure(Edges(b), roots))
    ensures Closure(Edges(a), roots) <= Closure(Edges(b), roots)
  {
    // What both closures hold is closed under the relations of `a`.
    var both := Closure(Edges(a), roots) * Closure(Edges(b), roots);
    forall x <- Expand(Edges(a), both)
      ensures x in both
    {
      assert x in Expand(Edges(a), Closure(Edges(a), roots));
      assert x in Expand(Edges(b), Closure(Edges(b), roots)) by {
        if r :| r in a && r.src in both && r.kind != Related && r.dst == x {
          assert r in Touching(a, Closure(Edges(a), roots));
        }
      }
    }
    ClosureLeast(Edges(a), roots, both);
  }

  /** From `a` to `b` the scope changed only by the ticket's four fields and by comments added to the ticket. */
  ghost predicate Progressed(a: Data, b: Data, ticket: Id, goal: Id) {
    var scope := ScopeOf(a, ticket, goal);
    && ScopeOf(b, ticket, goal) == scope
    && Touching(a.relations, scope) == Touching(b.relations, scope)
    && (forall i <- scope :: i in a.issues <==> i in b.issues)
    && (forall i <- scope :: i in a.issues && i != ticket ==> a.issues[i] == b.issues[i])
    && (ticket in a.issues ==> b.issues[ticket].rest == a.issues[ticket].rest)
    && (forall c <- a.comments :: a.comments[c].issue in scope ==> c in b.comments && b.comments[c] == a.comments[c])
    && (forall c <- b.comments :: b.comments[c].issue in scope ==>
          (c in a.comments && a.comments[c] == b.comments[c]) || b.comments[c].issue == ticket)
  }

  /** Data with one fingerprint agree on the whole scope. */
  lemma SamePrintProgressed(a: Data, b: Data, ticket: Id, goal: Id)
    requires Fingerprint(a, ticket, goal) == Fingerprint(b, ticket, goal)
    ensures Progressed(a, b, ticket, goal)
  {
    var (p, q) := (Fingerprint(a, ticket, goal), Fingerprint(b, ticket, goal));
    assert p.relations == q.relations;
    TouchingDeterminesScope(a.relations, b.relations, {ticket, goal});
    var scope := ScopeOf(a, ticket, goal);
    assert ticket in scope;
    assert forall i <- scope :: i in a.issues <==> i in p.issues;
    assert forall i <- scope :: i in b.issues <==> i in q.issues;
    assert forall c <- a.comments :: a.comments[c].issue in scope ==> c in p.comments && p.comments[c] == a.comments[c];
    assert forall c <- b.comments :: b.comments[c].issue in scope ==> c in q.comments && q.comments[c] == b.comments[c];
  }

  /** Looking past the ticket's own progress, data that agree differ only by that progress. */
  lemma BesidePrintProgressed(a: Data, b: Data, ticket: Id, goal: Id)
    requires Fingerprint(Beside(a, ticket, a.comments.Keys), ticket, goal)
          == Fingerprint(Beside(b, ticket, a.comments.Keys), ticket, goal)
    ensures Progressed(a, b, ticket, goal)
  {
    var (a', b') := (Beside(a, ticket, a.comments.Keys), Beside(b, ticket, a.comments.Keys));
    SamePrintProgressed(a', b', ticket, goal);
    var scope := ScopeOf(a, ticket, goal);
    assert ScopeOf(a', ticket, goal) == scope && ScopeOf(b', ticket, goal) == scope;
    assert a'.issues.Keys == a.issues.Keys && b'.issues.Keys == b.issues.Keys;
    forall c <- a.comments | a.comments[c].issue in scope
      ensures c in b.comments && b.comments[c] == a.comments[c]
    {
      assert c in a'.comments && a'.comments[c].issue in scope;
      assert c in b'.comments;
    }
    forall c <- b.comments | b.comments[c].issue in scope && b.comments[c].issue != ticket
      ensures c in a.comments && a.comments[c] == b.comments[c]
    {
      assert c in b'.comments && b'.comments[c].issue in scope;
      assert c in a'.comments;
    }
  }

  /** The prints beside the ticket agree exactly when its own progress is all that happened, and no comment that was
      known became one of the ticket or changed on it. */
  lemma BesideExactly(a: Data, b: Data, ticket: Id, goal: Id)
    ensures Fingerprint(Beside(a, ticket, a.comments.Keys), ticket, goal)
         == Fingerprint(Beside(b, ticket, a.comments.Keys), ticket, goal)
       <==> Progressed(a, b, ticket, goal)
            && forall c <- b.comments :: b.comments[c].issue == ticket && c in a.comments ==> a.comments[c] == b.comments[c]
  {
    var (a', b') := (Beside(a, ticket, a.comments.Keys), Beside(b, ticket, a.comments.Keys));
    var (p, q) := (Fingerprint(a', ticket, goal), Fingerprint(b', ticket, goal));
    assert ScopeOf(a', ticket, goal) == ScopeOf(a, ticket, goal) && ScopeOf(b', ticket, goal) == ScopeOf(b, ticket, goal);
    assert ticket in ScopeOf(b, ticket, goal);
    if p == q {
      BesidePrintProgressed(a, b, ticket, goal);
      forall c <- b.comments | b.comments[c].issue == ticket && c in a.comments
        ensures a.comments[c] == b.comments[c]
      {
        assert c in q.comments && c in p.comments;
      }
    } else if Progressed(a, b, ticket, goal)
              && forall c <- b.comments :: b.comments[c].issue == ticket && c in a.comments ==> a.comments[c] == b.comments[c] {
      ProgressedPrint(a, b, ticket, goal);
    }
  }

  lemma ProgressedPrint(a: Data, b: Data, ticket: Id, goal: Id)
    requires Progressed(a, b, ticket, goal)
    requires forall c <- b.comments :: b.comments[c].issue == ticket && c in a.comments ==> a.comments[c] == b.comments[c]
    ensures Fingerprint(Beside(a, ticket, a.comments.Keys), ticket, goal)
         == Fingerprint(Beside(b, ticket, a.comments.Keys), ticket, goal)
  {
    var (a', b') := (Beside(a, ticket, a.comments.Keys), Beside(b, ticket, a.comments.Keys));
    var (p, q) := (Fingerprint(a', ticket, goal), Fingerprint(b', ticket, goal));
    var scope := ScopeOf(a, ticket, goal);
    assert ScopeOf(a', ticket, goal) == scope && ScopeOf(b', ticket, goal) == scope;
    assert ticket in scope;
    forall i
      ensures i in p.issues <==> i in q.issues
      ensures i in p.issues ==> p.issues[i] == q.issues[i]
    {
    }
    assert p.issues == q.issues;
    forall c
      ensures c in p.comments <==> c in q.comments
      ensures c in p.comments ==> p.comments[c] == q.comments[c]
    {
    }
    assert p.comments == q.comments;
  }

  lemma ProgressedTransitive(a: Data, b: Data, c: Data, ticket: Id, goal: Id)
    requires Progressed(a, b, ticket, goal) && Progressed(b, c, ticket, goal)
    ensures Progressed(a, c, ticket, goal)
  {
  }

  // The journal's grant.

  datatype Grant = Grant(id: nat, ticket: Id, mark: Print, control: nat, reservation: nat, operations: set<string>)

  datatype Journal = Journal(goal: Id, iteration: nat, admission: Option<Grant>, writers: map<Id, nat>, quarantine: set<Id>)

  /** The current grant covers the operation, under the writer, the data and the control file it was given for. */
  predicate Cleared(j: Journal, operation: string, data: Data, control: nat) {
    && j.admission.Some?
    && var g := j.admission.value;
       && operation in g.operations && g.ticket in j.writers && j.writers[g.ticket] == g.reservation
       && Fingerprint(data, g.ticket, j.goal) == g.mark && control == g.control
  }

  datatype Checked = Clear(grant: Grant) | Refused

  /** The journal, the tracker and the control file; `origin` is the tracker when the current grant began. */
  class Loop {
    var journal: Journal
    var tracker: Data
    var control: nat
    ghost var origin: Data
    ghost var stand: Data
    ghost var began: nat

    /** The current grant stands on data that only its own ticket's progress separates from where it began. */
    ghost predicate Valid()
      reads this
    {
      journal.admission.Some? ==>
        var g := journal.admission.value;
        && g.mark == Fingerprint(stand, g.ticket, journal.goal)
        && Progressed(origin, stand, g.ticket, journal.goal)
        && g.control == began
    }

    constructor (goal: Id)
      ensures Valid() && journal == Journal(goal, 0, None, map[], {})
    {
      journal := Journal(goal, 0, None, map[], {});
      tracker := Data(map[], map[], {});
      control := 0;
      origin, stand, began := Data(map[], map[], {}), Data(map[], map[], {}), 0;
    }

    /** Anyone may write to the tracker and the control file. */
    method Others()
      modifies this`tracker, this`control
    {
      tracker := Oracle();
      control := Oracle();
    }

    /** A new grant, on what the tracker shows now; never for a ticket bound to a quarantined one. What else admission
        asks for, and whether the journal can be saved, is given. */
    method Begin(ticket: Id, operations: set<string>, admitted: bool, saved: bool) returns (id: Option<nat>)
      requires Valid()
      modifies this
      ensures Valid() && journal.goal == old(journal.goal)
      ensures id.None? ==> journal == old(journal) && origin == old(origin)
      ensures id.Some? <==>
                && admitted && saved && ticket in journal.writers && ticket in tracker.issues
                && tracker.issues[ticket].status != "closed"
                && forall q <- journal.quarantine :: !Reaches(Edges(tracker.relations), {ticket}, q)
      ensures id.Some? ==>
                && journal == old(journal).(iteration := old(journal.iteration) + 1, admission := journal.admission)
                && journal.admission == Some(Grant(old(journal.iteration), ticket, Fingerprint(tracker, ticket, journal.goal),
                                                   control, journal.writers[ticket], operations))
      ensures id.Some? ==>
                && journal.admission.Some? && journal.admission.value.id == id.value
                && journal.admission.value.ticket == ticket && journal.admission.value.operations == operations
                && origin == stand == tracker && began == control && ticket in origin.issues && ticket in journal.writers
                && forall q <- journal.quarantine :: !Reaches(Edges(origin.relations), {ticket}, q)
    {
      Others();
      var data := tracker;
      if !admitted {
        return None;
      }
      var denied := ExcludedScope(data.relations, journal.quarantine);
      if ticket in denied || ticket !in journal.writers || ticket !in data.issues || data.issues[ticket].status == "closed" {
        return None;
      }
      assert forall q <- journal.quarantine :: !Reaches(Edges(data.relations), {ticket}, q);
      if !saved {
        return None;
      }
      var grant := Grant(journal.iteration, ticket, Fingerprint(data, ticket, journal.goal), control,
                         journal.writers[ticket], operations);
      journal := journal.(iteration := journal.iteration + 1, admission := Some(grant));
      origin, stand, began := data, data, control;
      SamePrintProgressed(data, data, ticket, journal.goal);
      id := Some(grant.id);
    }

    /**
     Clears one operation: only the current grant, only for its own ticket and operations, under its own writer,
     on an unchanged control file, and only when all that changed in scope since it began is its ticket's progress.
     */
    method Check(id: nat, operation: string, tickets: set<Id>) returns (r: Checked, data: Data)
      requires Valid()
      modifies this`tracker, this`control
      ensures Valid() && data == tracker
      ensures r.Clear? <==>
                && journal.admission.Some? && journal.admission.value.id == id && tickets <= {journal.admission.value.ticket}
                && Cleared(journal, operation, data, control)
      ensures r.Clear? ==>
                && journal.admission == Some(r.grant) && r.grant.id == id && tickets <= {r.grant.ticket}
                && operation in r.grant.operations
                && r.grant.ticket in journal.writers && journal.writers[r.grant.ticket] == r.grant.reservation
                && control == began && r.grant.mark == Fingerprint(data, r.grant.ticket, journal.goal)
                && Progressed(origin, data, r.grant.ticket, journal.goal)
    {
      Others();
      data := tracker;
      if journal.admission.None? || journal.admission.value.id != id {
        return Refused, data;
      }
      var grant := journal.admission.value;
      if !(tickets <= {grant.ticket}) || operation !in grant.operations || grant.ticket !in journal.writers
        || journal.writers[grant.ticket] != grant.reservation {
        return Refused, data;
      }
      if Fingerprint(data, grant.ticket, journal.goal) != grant.mark || control != grant.control {
        return Refused, data;
      }
      SamePrintProgressed(stand, data, grant.ticket, journal.goal);
      ProgressedTransitive(origin, stand, data, grant.ticket, journal.goal);
      r := Clear(grant);
    }

    /** The run's own write: the grant moves with it only if nothing else changed meanwhile. */
    method Transition(id: nat, operation: string, ticket: Id, saved: bool)
      returns (ok: bool, ghost before: Data, ghost held: nat)
      requires Valid()
      modifies this
      ensures Valid() && origin == old(origin) && journal.goal == old(journal.goal)
      ensures journal == old(journal).(admission := journal.admission)
      ensures !ok ==> journal == old(journal)
      ensures ok <==>
                && saved && old(journal.admission.Some? && journal.admission.value.id == id && journal.admission.value.ticket == ticket)
                && Cleared(old(journal), operation, before, held)
                && Fingerprint(Beside(tracker, ticket, before.comments.Keys), ticket, journal.goal)
                   == Fingerprint(Beside(before, ticket, before.comments.Keys), ticket, journal.goal)
      ensures ok ==>
                && old(journal.admission.Some?)
                && old(journal.admission.value.id) == id && old(journal.admission.value.ticket) == ticket
                && journal.admission == Some(old(journal.admission.value).(mark := Fingerprint(stand, ticket, journal.goal)))
                && stand == tracker && Progressed(origin, stand, ticket, journal.goal)
    {
      hide Progressed, Fingerprint, Beside;
      var r, seen := Check(id, operation, {ticket});
      before, held := seen, control;
      if r.Refused? {
        return false, before, held;
      }
      // The write itself, and whatever others do meanwhile.
      Others();
      var after := tracker;
      var known := seen.comments.Keys;
      if Fingerprint(Beside(after, ticket, known), ticket, journal.goal)
        != Fingerprint(Beside(seen, ticket, known), ticket, journal.goal) {
        return false, before, held;
      }
      if !saved {
        return false, before, held;
      }
      BesidePrintProgressed(before, after, ticket, journal.goal);
      ProgressedTransitive(origin, before, after, ticket, journal.goal);
      journal := journal.(admission := Some(r.grant.(mark := Fingerprint(after, ticket, journal.goal))));
      stand := after;
      ok := true;
    }

    /** Under every interleaving of begins, checks, own transitions and other people's changes. */
    method AnyRun(steps: nat)
      requires Valid()
      modifies this
      ensures Valid() && journal.goal == old(journal.goal)
    {
      hide Progressed, Fingerprint;
      for i := 0 to steps
        invariant Valid() && journal.goal == old(journal.goal)
      {
        var id: nat := Oracle();
        var ticket: Id := Oracle();
        var operation: string := Oracle();
        if * {
          var operations: set<string> := Oracle();
          var admitted: bool := Oracle();
          var saved: bool := Oracle();
          var _ := Begin(ticket, operations, admitted, saved);
        } else if * {
          var _, _ := Check(id, operation, {ticket});
        } else if * {
          var saved: bool := Oracle();
          var _, _, _ := Transition(id, operation, ticket, saved);
        } else if * {
          var owner: nat := Oracle();
          journal := journal.(writers := journal.writers[ticket := owner]);
        } else {
          journal := journal.(quarantine := journal.quarantine + {ticket});
        }
      }
    }
  }
}

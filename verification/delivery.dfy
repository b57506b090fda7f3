/**
 Publication of one marked comment and delivery of one pointer to it. Every step
 may be the last before a crash, every durable write may be lost, kept or
 quarantined, and any caller may try again with any arguments.
 */
module Delivery {
  import opened Wrappers
  import opened Records

  // Comments.

  datatype Comment = Comment(issue: string, id: nat, lines: seq<string>)

  function Marker(operation: string): string {
    "operation: " + operation
  }

  predicate Begins(line: string, prefix: string) {
    prefix <= line
  }

  predicate Blank(c: char) {
    c == ' ' || c == '\t'
  }

  /** Trimmed, not empty, and without an operation line of its own. */
  predicate Publishable(body: seq<string>) {
    && body != [] && body[0] != "" && !Blank(body[0][0])
    && body[|body| - 1] != "" && !Blank(body[|body| - 1][|body[|body| - 1]| - 1])
    && forall line <- body :: !Begins(line, "operation:")
  }

  function Marked(body: seq<string>, operation: string): seq<string> {
    body + ["", Marker(operation)]
  }

  predicate Carries(c: Comment, issue: string, operation: string) {
    c.issue == issue && Marker(operation) in c.lines
  }

  function Carrying(comments: seq<Comment>, issue: string, operation: string): (found: seq<Comment>)
    ensures forall c :: c in found <==> c in comments && Carries(c, issue, operation)
  {
    if comments == [] then []
    else
      var rest := Carrying(comments[..|comments| - 1], issue, operation);
      var last := comments[|comments| - 1];
      if Carries(last, issue, operation) then rest + [last] else rest
  }

  lemma CarryingAppend(comments: seq<Comment>, c: Comment, issue: string, operation: string)
    ensures Carrying(comments + [c], issue, operation)
         == Carrying(comments, issue, operation) + (if Carries(c, issue, operation) then [c] else [])
  {
  }

  /** A marked body carries exactly its own operation. */
  lemma MarkedCarries(body: seq<string>, operation: string, other: string)
    requires Publishable(body)
    ensures Marker(other) in Marked(body, operation) <==> other == operation
  {
    assert Marker(other)[..|"operation:"|] == "operation:";
    assert Begins(Marker(other), "operation:");
    assert Marker(other)[|"operation: "|..] == other;
    assert Marker(operation)[|"operation: "|..] == operation;
    assert Marked(body, operation)[|body| + 1] == Marker(operation);
  }

  datatype Claim = Claim(issue: string, id: nat, lines: seq<string>, operation: string)

  datatype Publication = Verified(claim: Claim) | Held | Stopped

  /** No operation has two comments on one issue. */
  ghost predicate Unique(comments: seq<Comment>) {
    forall issue: string, operation: string :: |Carrying(comments, issue, operation)| <= 1
  }

  /** How one write fares: whether the store keeps it, and under which identifier, and whether it is reported as failed. */
  datatype Posted = Posted(kept: bool, id: nat, failed: bool)

  /** A publication under way: how its writes fare, and before which read of the store it stops, if it does. */
  datatype Posting = Posting(first: Posted, second: Posted, stop: Option<nat>)

  class Store {
    var comments: seq<Comment>

    /** The outcome of a write is unknown until the store is read again. */
    method Add(issue: string, lines: seq<string>, posted: Posted) returns (failed: bool)
      modifies this
      ensures comments == if posted.kept then old(comments) + [Comment(issue, posted.id, lines)] else old(comments)
      ensures failed == posted.failed
    {
      if posted.kept {
        comments := comments + [Comment(issue, posted.id, lines)];
      }
      failed := posted.failed;
    }

    /** Others comment too, but not in the name of an operation. */
    method Others()
      modifies this
      ensures old(comments) <= comments
      ensures forall issue: string, operation: string ::
                Carrying(comments, issue, operation) == Carrying(old(comments), issue, operation)
    {
      var c: Comment := Oracle();
      if forall line <- c.lines :: !Begins(line, "operation:") {
        forall issue: string, operation: string
          ensures Carrying(comments + [c], issue, operation) == Carrying(comments, issue, operation)
        {
          CarryingAppend(comments, c, issue, operation);
          assert Begins(Marker(operation), "operation:") by {
            assert Marker(operation)[..|"operation:"|] == "operation:";
          }
        }
        comments := comments + [c];
      }
    }

    /**
     Publishes the body at most once, whatever failed or crashed before: a write happens only when a fresh read
     shows no comment of the operation, a second one only after the first reported failure, so no other
     operation's comments change and this one's never exceed one. `failures` lists how the writes were reported.
     */
    method EnsureComment(issue: string, operation: string, body: seq<string>, posting: Posting)
      returns (r: Publication, ghost failures: seq<bool>)
      requires Unique(comments)
      modifies this
      ensures Unique(comments) && old(comments) <= comments && |comments| <= |old(comments)| + 1
      ensures comments != old(comments) ==> Carrying(old(comments), issue, operation) == []
      ensures r.Verified? ==>
                && r.claim.issue == issue && r.claim.operation == operation && r.claim.lines == Marked(body, operation)
                && Carrying(comments, issue, operation) == [Comment(issue, r.claim.id, Marked(body, operation))]
      ensures !Publishable(body) ==> r.Held? && comments == old(comments)
      ensures |failures| <= 2 && (|failures| == 2 ==> failures[0]) && (comments != old(comments) ==> failures != [])
      ensures Carrying(old(comments), issue, operation) != [] ==> failures == []
      ensures posting.stop.None? ==> !r.Stopped?
      ensures posting.stop.None? && Publishable(body) ==>
                var found := Carrying(old(comments), issue, operation);
                if found != [] then r.Verified? <==> found[0].lines == Marked(body, operation)
                else
                  && (r.Verified? <==> posting.first.kept || (posting.first.failed && posting.second.kept))
                  && (r.Verified? ==> r.claim.id == if posting.first.kept then posting.first.id else posting.second.id)
                  && failures == if posting.first.failed && !posting.first.kept then [true, posting.second.failed]
                                 else [posting.first.failed]
    {
      hide Carrying, Unique, Marked, Publishable;
      failures := [];
      if !Publishable(body) {
        return Held, failures;
      }
      if posting.stop == Some(0) {
        return Stopped, failures;
      }
      UniqueOne(comments, issue, operation);
      var found := Carrying(comments, issue, operation);
      if found == [] {
        var failed := Post(issue, operation, body, posting.first);
        failures := [failed];
        if posting.stop == Some(1) {
          return Stopped, failures;
        }
        found := Carrying(comments, issue, operation);
        if failed && found == [] {
          failed := Post(issue, operation, body, posting.second);
          failures := failures + [failed];
          if posting.stop == Some(2) {
            return Stopped, failures;
          }
          found := Carrying(comments, issue, operation);
        }
      }
      if |found| != 1 {
        return Held, failures;
      }
      if found[0].lines != Marked(body, operation) {
        return Held, failures;
      }
      assert found[0] in Carrying(comments, issue, operation);
      r := Verified(Claim(issue, found[0].id, Marked(body, operation), operation));
    }

    /** A write for an operation that has no comment: it has this one afterwards, or still none. */
    method Post(issue: string, operation: string, body: seq<string>, posted: Posted) returns (failed: bool)
      requires Unique(comments) && Publishable(body) && Carrying(comments, issue, operation) == []
      modifies this
      ensures Unique(comments) && failed == posted.failed && old(comments) <= comments
      ensures comments == if posted.kept then old(comments) + [Comment(issue, posted.id, Marked(body, operation))] else old(comments)
      ensures Carrying(comments, issue, operation)
           == if posted.kept then [Comment(issue, posted.id, Marked(body, operation))] else []
    {
      failed := Add(issue, Marked(body, operation), posted);
      if posted.kept {
        Added(old(comments), issue, posted.id, operation, body);
      }
    }
  }

  lemma UniqueOne(comments: seq<Comment>, issue: string, operation: string)
    requires Unique(comments)
    ensures |Carrying(comments, issue, operation)| <= 1
    ensures forall c <- Carrying(comments, issue, operation) :: c.issue == issue
  {
  }

  lemma Added(before: seq<Comment>, issue: string, id: nat, operation: string, body: seq<string>)
    requires Unique(before) && Publishable(body) && Carrying(before, issue, operation) == []
    ensures var c := Comment(issue, id, Marked(body, operation));
            Unique(before + [c]) && Carrying(before + [c], issue, operation) == [c]
  {
    var c := Comment(issue, id, Marked(body, operation));
    forall i: string, other: string
      ensures |Carrying(before + [c], i, other)| <= 1
    {
      CarryingAppend(before, c, i, other);
      MarkedCarries(body, operation, other);
    }
    CarryingAppend(before, c, issue, operation);
    MarkedCarries(body, operation, operation);
  }

  // Delivery.

  datatype Stage = CommentVerified | QueueIntended | DeliveryUncertain | Enqueued

  datatype Pointer = Pointer(claim: Claim, thread: nat, text: string)

  datatype Intent = Intent(pointer: Pointer, stage: Stage, failures: nat, message: nat)

  datatype Queued = Queued(pointer: Pointer, message: nat)

  /** What becomes of an enqueue: accepted or refused with an answer; without one, or without a caller to hear it, it
      may have been taken or not. */
  datatype Answer = Accepted(message: nat) | Refusal | Lost(taken: bool, message: nat) | Unheard(taken: bool, message: nat)

  /** A delivery under way: whether routing admits it, how its intent is written, whether it stops there, what the queue
      answers, and how that is recorded. */
  datatype Fates = Fates(admitted: bool, intent: Fate, stops: bool, answer: Answer, record: Fate)

  /** What the queue holds of a pointer after this answer. */
  function Taken(pointer: Pointer, answer: Answer): seq<Queued> {
    match answer
    case Accepted(message) => [Queued(pointer, message)]
    case Refusal => []
    case Lost(taken, message) => if taken then [Queued(pointer, message)] else []
    case Unheard(taken, message) => if taken then [Queued(pointer, message)] else []
  }

  /** The record of an answer: a message, one more failure that a retry may follow, or a doubt that none may. */
  predicate Tells(prior: Intent, answer: Answer, next: Intent) {
    && next.pointer == prior.pointer
    && match answer
       case Accepted(message) => next.stage == Enqueued && next.message == message && next.failures == prior.failures
       case Refusal => next.stage == CommentVerified && next.message == prior.message && next.failures == prior.failures + 1
       case Lost(_, _) => next.stage == DeliveryUncertain && next.message == prior.message && next.failures == prior.failures + 1
       case Unheard(_, _) => true
  }

  datatype Delivered = Receipt(pointer: Pointer, message: nat) | Hold | Failed | Crashed

  /** What one durable state may say, given what was enqueued. */
  predicate Sound(e: Entry<Intent>, queue: seq<Queued>) {
    && |queue| <= 1
    && (queue != [] ==> e.residue || (e.canonical.Some? && e.canonical.value.stage != CommentVerified))
    && (e.canonical.Some? && e.canonical.value.stage == Enqueued ==>
          queue == [Queued(e.canonical.value.pointer, e.canonical.value.message)])
  }

  /** The ledger already speaks for another pointer, or for an outcome that nobody knows. */
  predicate Settled(prior: Option<Intent>, pointer: Pointer) {
    prior.Some? && (prior.value.pointer != pointer || prior.value.stage in {QueueIntended, DeliveryUncertain})
  }

  /** An intent may be written over a record that says the same but for its stage. */
  lemma IntentSound(pending: seq<Entry<Intent>>, prior: Intent, queue: seq<Queued>, fate: Fate)
    requires pending != [] && (forall e <- pending :: Sound(e, queue)) && queue == []
    ensures forall e <- After(pending, prior.(stage := QueueIntended), fate).0 :: Sound(e, queue)
  {
  }

  /** One operation ID: its ledger file, and what the native queue ever accepted for it. */
  class Operation {
    const file: Record<Intent>
    const store: Store
    ghost var queue: seq<Queued>

    ghost predicate Valid()
      reads this, file
    {
      file.Valid() && forall e <- file.pending :: Sound(e, queue)
    }

    constructor (store: Store)
      ensures Valid() && queue == [] && fresh(file) && this.store == store
    {
      file := new Record();
      this.store := store;
      queue := [];
    }

    /**
     Delivers the pointer. Nothing is enqueued twice; what is enqueued now is the caller's pointer, to a comment
     that the store holds for its operation at this moment, after the intent was durable; and a receipt names the
     one message ever enqueued.
     */
    method Deliver(pointer: Pointer) returns (r: Delivered)
      requires Valid()
      modifies this, file
      ensures Valid() && old(queue) <= queue && |queue| <= 1
      ensures r.Receipt? ==> r.pointer == pointer && queue == [Queued(pointer, r.message)]
      ensures queue != old(queue) ==>
                && queue[0].pointer == pointer
                && Carrying(store.comments, pointer.claim.issue, pointer.claim.operation)
                   == [Comment(pointer.claim.issue, pointer.claim.id, pointer.claim.lines)]
                && (old(file.Visible()).canonical.None? || old(file.Visible()).canonical.value.stage == CommentVerified)
      ensures old(file.Visible().residue || Settled(file.Visible().canonical, pointer)) ==>
                r.Hold? && file.pending == old(file.pending)
      ensures r.Receipt? ==> file.Visible().canonical.Some? && file.Visible().canonical.value.stage == Enqueued
    {
      var fates: Fates := Oracle();
      r := DeliverAs(pointer, fates);
    }

    /** The stored comment is the claimed one, routing admits the delivery, and the ledger can be read. */
    predicate Open(pointer: Pointer, fates: Fates)
      requires file.Valid()
      reads this, file, store
    {
      && Carrying(store.comments, pointer.claim.issue, pointer.claim.operation)
         == [Comment(pointer.claim.issue, pointer.claim.id, pointer.claim.lines)]
      && fates.admitted && !file.Visible().residue
    }

    /** The same, when everything outside fares as given: a delivery that is due is enqueued, and its answer recorded. */
    method DeliverAs(pointer: Pointer, fates: Fates) returns (r: Delivered)
      requires Valid()
      modifies this, file
      ensures Valid() && old(queue) <= queue && |queue| <= 1
      ensures r.Receipt? ==> r.pointer == pointer && queue == [Queued(pointer, r.message)]
      ensures queue != old(queue) ==>
                && queue[0].pointer == pointer
                && Carrying(store.comments, pointer.claim.issue, pointer.claim.operation)
                   == [Comment(pointer.claim.issue, pointer.claim.id, pointer.claim.lines)]
                && (old(file.Visible()).canonical.None? || old(file.Visible()).canonical.value.stage == CommentVerified)
      ensures old(file.Visible().residue || Settled(file.Visible().canonical, pointer)) ==>
                r.Hold? && file.pending == old(file.pending)
      ensures r.Receipt? ==> file.Visible().canonical.Some? && file.Visible().canonical.value.stage == Enqueued
      ensures !old(Open(pointer, fates)) ==> r.Hold? && file.pending == old(file.pending) && queue == old(queue)
      ensures old(Open(pointer, fates)) && old(file.Visible()).canonical.Some?
              && old(file.Visible()).canonical.value.pointer == pointer
              && old(file.Visible()).canonical.value.stage == Enqueued ==>
                r == Receipt(pointer, old(file.Visible()).canonical.value.message) && file.pending == old(file.pending)
      ensures old(Open(pointer, fates)) && fates.intent == Synced(false) && !fates.stops
              && (old(file.Visible()).canonical.Some? ==>
                    old(file.Visible()).canonical.value.pointer == pointer
                    && old(file.Visible()).canonical.value.stage == CommentVerified) ==>
                && queue == Taken(pointer, fates.answer)
                && (fates.record == Synced(false) && !fates.answer.Unheard? ==>
                      && |file.pending| == 1 && file.Visible().canonical.Some?
                      && Tells(if old(file.Visible()).canonical.Some? then old(file.Visible()).canonical.value
                               else Intent(pointer, CommentVerified, 0, 0), fates.answer, file.Visible().canonical.value)
                      && r == match fates.answer
                              case Accepted(message) => Receipt(pointer, message)
                              case Refusal => Failed
                              case _ => Hold)
    {
      assert Sound(file.Visible(), queue);
      var claim := pointer.claim;
      if Carrying(store.comments, claim.issue, claim.operation) != [Comment(claim.issue, claim.id, claim.lines)] {
        return Hold;
      }
      if !fates.admitted {
        return Hold;
      }
      var refused, read := file.Read();
      if refused {
        return Hold;
      }
      var prior := if read.Some? then read.value else Intent(pointer, CommentVerified, 0, 0);
      if prior.pointer != pointer {
        return Hold;
      }
      if prior.stage == Enqueued {
        return Receipt(pointer, prior.message);
      }
      if prior.stage != CommentVerified {
        return Hold;
      }
      var outcome := file.Write(prior.(stage := QueueIntended), fates.intent);
      IntentSound(old(file.pending), prior, queue, fates.intent);
      if !outcome.Written? {
        return if outcome.Died? then Crashed else Failed;
      }
      if fates.stops {
        return Crashed;
      }
      r := Enqueue(prior, fates.answer, fates.record);
    }

    /** The effect, and the record of how it went. */
    method Enqueue(prior: Intent, answer: Answer, fate: Fate) returns (r: Delivered)
      requires Valid() && queue == [] && file.pending == [Entry(Some(prior.(stage := QueueIntended)), false)]
      requires prior.stage == CommentVerified
      modifies this, file
      ensures Valid() && queue == Taken(prior.pointer, answer)
      ensures r.Receipt? ==> r.pointer == prior.pointer && queue == [Queued(prior.pointer, r.message)]
      ensures r.Receipt? ==> file.pending == [Entry(Some(prior.(stage := Enqueued, message := r.message)), false)]
      ensures r.Hold? ==>
                file.pending == [Entry(Some(prior.(stage := DeliveryUncertain, failures := prior.failures + 1)), false)]
      ensures answer.Unheard? ==> r.Crashed? && file.pending == old(file.pending)
      ensures !answer.Unheard? ==> exists next :: Tells(prior, answer, next) && file.pending == After(old(file.pending), next, fate).0
      ensures fate == Synced(false) ==>
                r == match answer
                     case Accepted(message) => Receipt(prior.pointer, message)
                     case Refusal => Failed
                     case Lost(_, _) => Hold
                     case Unheard(_, _) => Crashed
    {
      match answer
      case Accepted(message) =>
        queue := [Queued(prior.pointer, message)];
        var next := prior.(stage := Enqueued, message := message);
        var outcome := file.Write(next, fate);
        assert Tells(prior, answer, next);
        r := if outcome.Written? then Receipt(prior.pointer, message) else if outcome.Died? then Crashed else Failed;
      case Refusal =>
        var next := prior.(failures := prior.failures + 1);
        var outcome := file.Write(next, fate);
        assert Tells(prior, answer, next);
        r := if outcome.Died? then Crashed else Failed;
      case Lost(taken, message) =>
        queue := if taken then [Queued(prior.pointer, message)] else [];
        var next := prior.(stage := DeliveryUncertain, failures := prior.failures + 1);
        var outcome := file.Write(next, fate);
        assert Tells(prior, answer, next);
        r := if outcome.Died? then Crashed else if outcome.Raised? then Failed else Hold;
      case Unheard(taken, message) =>
        queue := if taken then [Queued(prior.pointer, message)] else [];
        r := Crashed;
    }

    /** Every retry with any pointer, every crash and every loss of power: at most one enqueue, and receipts agree. */
    method AnyRun(steps: nat) returns (receipts: seq<Delivered>)
      requires Valid() && Unique(store.comments)
      modifies this, file, store
      ensures Valid() && |queue| <= 1 && old(queue) <= queue
      ensures forall r <- receipts :: r.Receipt? && queue == [Queued(r.pointer, r.message)]
    {
      receipts := [];
      assert Sound(file.Visible(), queue);
      for i := 0 to steps
        invariant Valid() && Unique(store.comments) && |queue| <= 1 && old(queue) <= queue
        invariant forall r <- receipts :: r.Receipt? && queue == [Queued(r.pointer, r.message)]
      {
        if * {
          var pointer: Pointer := Oracle();
          var r := Deliver(pointer);
          if r.Receipt? {
            receipts := receipts + [r];
          }
        } else if * {
          file.LosePower();
        } else if * {
          var issue: string := Oracle();
          var operation: string := Oracle();
          var body: seq<string> := Oracle();
          var posting: Posting := Oracle();
          var _, _ := store.EnsureComment(issue, operation, body, posting);
        } else {
          store.Others();
        }
      }
    }
  }
}

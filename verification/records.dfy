/**
 Durable records. A write replaces the canonical name, syncs the directory, and
 quarantines a replacement that was not acknowledged; it may stop anywhere.
 */
module Records {
  import opened Wrappers

  /** The two names of one record: the canonical one and the residue of an uncertain publication. */
  datatype Entry<T> = Entry(canonical: Option<T>, residue: bool)

  datatype Wrote = Written | Raised | Died

  /** How far a write comes: not to the replacement; to it, but not to its sync; through the sync; or to the
      quarantine of a replacement that was not acknowledged. `died` is a stop before the caller is told. */
  datatype Fate = Unwritten | Unsynced(died: bool) | Synced(died: bool) | Quarantined(synced: bool, died: bool)

  /** What a write leaves that a loss of power may bring back, and what its caller learns. */
  function After<T>(pending: seq<Entry<T>>, value: T, fate: Fate): (seq<Entry<T>>, Wrote)
    requires pending != []
  {
    var (replaced, lost) := (pending + [Entry(Some(value), false)], Entry(None, true));
    if pending[|pending| - 1].residue then (pending, Raised)
    else match fate
      case Unwritten => (pending, Raised)
      case Unsynced(died) => (replaced, if died then Died else Raised)
      case Synced(died) => ([Entry(Some(value), false)], if died then Died else Written)
      case Quarantined(synced, died) => (if synced then [lost] else replaced + [lost], if died then Died else Raised)
  }

  /** A record's directory entry, as the states it passed through since the directory was last synced. */
  class Record<T(==)> {
    var pending: seq<Entry<T>>

    ghost predicate Valid()
      reads this
    {
      pending != [] && forall e <- pending :: e.residue ==> e.canonical.None?
    }

    function Visible(): (e: Entry<T>)
      requires Valid()
      reads this
      ensures e in pending
    {
      pending[|pending| - 1]
    }

    constructor ()
      ensures pending == [Entry(None, false)]
    {
      pending := [Entry(None, false)];
    }

    /** Residue refuses; absence is an answer of its own. */
    method Read() returns (refused: bool, value: Option<T>)
      requires Valid()
      ensures refused <==> Visible().residue
      ensures !refused ==> value == Visible().canonical
    {
      refused, value := Visible().residue, Visible().canonical;
    }

    /**
     An acknowledged write leaves only the new record, whatever happens next. Any other outcome adds at most the
     new record and then a quarantined one to what a loss of power may bring back.
     */
    method AtomicWrite(value: T) returns (outcome: Wrote)
      requires Valid()
      modifies this
      ensures Valid()
      ensures old(Visible().residue) ==> !outcome.Written? && pending == old(pending)
      ensures outcome.Written? ==> pending == [Entry(Some(value), false)]
      ensures forall e :: e in pending ==>
                            e in old(pending) || e == Entry(Some(value), false) || e == Entry(None, true)
      ensures Visible() in {old(Visible()), Entry(Some(value), false), Entry(None, true)}
    {
      var fate: Fate := Oracle();
      outcome := Write(value, fate);
    }

    method Write(value: T, fate: Fate) returns (outcome: Wrote)
      requires Valid()
      modifies this
      ensures Valid() && (pending, outcome) == After(old(pending), value, fate)
    {
      if Visible().residue || fate.Unwritten? {
        return Raised;
      }
      pending := pending + [Entry(Some(value), false)];
      if fate.Synced? {
        pending := [Visible()];
        return if fate.died then Died else Written;
      }
      // The replacement is not acknowledged: keep its bytes under the other name.
      if fate.Quarantined? {
        pending := pending + [Entry(None, true)];
        if fate.synced {
          pending := [Visible()];
        }
      }
      outcome := if fate.died then Died else Raised;
    }

    /** A loss of power brings back any state since the last sync. */
    method LosePower()
      requires Valid()
      modifies this
      ensures Valid() && |pending| == 1 && pending[0] in old(pending)
    {
      var k: nat := Oracle();
      Revert(k % |pending|);
    }

    method Revert(k: nat)
      requires Valid() && k < |pending|
      modifies this
      ensures Valid() && pending == [old(pending)[k]]
    {
      pending := [pending[k]];
    }
  }
}

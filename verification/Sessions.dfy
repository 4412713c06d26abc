/** The session store as the coordinator uses it: an append is kept, lost, or kept without saying so. */
module Sessions {
  import opened Options
  import opened SessionTypes
  import opened SessionState
  import opened SessionHistory

  /** How an append ends; the last two report failure. */
  datatype Outcome = Kept | Lost | KeptUnreported

  class Sessions {
    var stored: Stored

    constructor (stored: Stored)
      ensures this.stored == stored
    {
      this.stored := stored;
    }

    /** A page of at most `limit` items after a position. */
    method Items(after: nat, limit: nat) returns (items: seq<Item>, nextAfter: nat, more: bool)
      requires limit > 0 && after <= |stored.items| && Lawful(stored.items)
      ensures after + |items| <= |stored.items| && items == stored.items[after..after + |items|] && |items| <= limit
      ensures nextAfter == after + |items|
      ensures more <==> nextAfter < |stored.items|
      ensures more ==> |items| == limit
    {
      var end := if after + limit < |stored.items| then after + limit else |stored.items|;
      items := stored.items[after..end];
      nextAfter := after;
      if items != [] {
        LawfulAt(stored.items, end - 1);
        nextAfter := items[|items| - 1].sequence;
      }
      more := end < |stored.items|;
    }

    /** An update comes from outside: one of an operation the session does not know, or of another kind, is refused. */
    method Save(op: Operation) returns (ok: bool, ghost at: nat)
      modifies this
      ensures at != 0
      ensures !Accepts(old(stored).head, SaveOperation(op)) ==> !ok && stored == old(stored)
      ensures ok ==> stored == Apply(old(stored), SaveOperation(op), at).value
      ensures stored == old(stored) || stored == Apply(old(stored), SaveOperation(op), at).value
    {
      if !Accepts(stored.head, SaveOperation(op)) {
        return false, 1;
      }
      ok, at := Append(SaveOperation(op));
    }

    /** The rules are the caller's to keep: a request the session would refuse is not allowed here. */
    method Append(request: Request) returns (ok: bool, ghost at: nat)
      requires Accepts(stored.head, request)
      modifies this
      ensures at != 0
      ensures ok ==> stored == Apply(old(stored), request, at).value
      ensures stored == old(stored) || stored == Apply(old(stored), request, at).value
    {
      var clock: nat :| true;
      var now := clock + 1;
      var outcome: Outcome :| true;
      at := now;
      if !outcome.Lost? {
        var head := After(stored.head, request);
        match DataOf(request) {
          case None => stored := Stored(head, stored.items);
          case Some(data) => stored := Stored(head, stored.items + [Item(head.itemSequence, now, data)]);
        }
      }
      ok := outcome.Kept?;
    }
  }
}

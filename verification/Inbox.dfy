/** The inbox: a queue of inputs that lets every ID through once, in the order it first arrives. */
module Inbox {
  import opened Options
  import opened SessionTypes
  import opened SessionState
  import opened SessionHistory
  import opened SessionResume

  /** The first occurrence of each ID, but for those already seen. */
  function FirstArrivals(seen: set<string>, inputs: seq<Input>): seq<Input> {
    if inputs == [] then []
    else
      var front, last := inputs[..|inputs| - 1], inputs[|inputs| - 1];
      FirstArrivals(seen, front) + if last.id in seen || last.id in IdsOf(front) then [] else [last]
  }

  function IdsOf(inputs: seq<Input>): set<string> {
    set input | input in inputs :: input.id
  }

  /** What comes out has no ID twice, none seen before, and every new ID that went in. */
  lemma {:induction false} ArrivalsOnce(seen: set<string>, inputs: seq<Input>)
    ensures var out := FirstArrivals(seen, inputs);
            && (forall i, j :: 0 <= i < j < |out| ==> out[i].id != out[j].id)
            && IdsOf(out) == IdsOf(inputs) - seen
            && forall input :: input in out ==> input in inputs
  {
    hide IdsOf;
    if inputs == [] {
      NoIds();
    } else {
      var front, last := inputs[..|inputs| - 1], inputs[|inputs| - 1];
      ArrivalsOnce(seen, front);
      var before := FirstArrivals(seen, front);
      assert inputs == front + [last] && before + [] == before;
      IdsMore(front, last);
      IdsMore(before, last);
      forall i | 0 <= i < |before|
        ensures before[i].id in IdsOf(before)
      {
        HasId(before, i);
      }
    }
  }

  lemma NoIds()
    ensures IdsOf([]) == {}
  {
  }

  lemma IdsMore(inputs: seq<Input>, input: Input)
    ensures IdsOf(inputs + [input]) == IdsOf(inputs) + {input.id}
  {
    assert forall other :: other in inputs + [input] <==> other in inputs || other == input;
  }

  lemma HasId(inputs: seq<Input>, i: nat)
    requires i < |inputs|
    ensures inputs[i].id in IdsOf(inputs)
  {
    assert inputs[i] in inputs;
  }

  /** The order is that of first arrival: a later batch never changes what an earlier one let out. */
  lemma {:induction false} ArrivalsExtend(seen: set<string>, a: seq<Input>, b: seq<Input>)
    ensures FirstArrivals(seen, a) <= FirstArrivals(seen, a + b)
  {
    if b == [] {
      assert a + b == a;
    } else {
      assert (a + b)[..|a + b| - 1] == a + b[..|b| - 1];
      ArrivalsExtend(seen, a, b[..|b| - 1]);
    }
  }

  /** The IDs of the external inputs, in order. */
  function ExternalOf(inputs: seq<Input>): seq<string> {
    if inputs == [] then []
    else (if inputs[0].kind.External? then [inputs[0].id] else []) + ExternalOf(inputs[1..])
  }

  lemma {:induction false} ExternalSplit(a: seq<Input>, b: seq<Input>)
    ensures ExternalOf(a + b) == ExternalOf(a) + ExternalOf(b)
  {
    if a == [] {
      assert a + b == b;
    } else {
      assert (a + b)[1..] == a[1..] + b;
      ExternalSplit(a[1..], b);
    }
  }

  lemma {:induction false} ExternalIsInput(inputs: seq<Input>, id: string)
    requires id in ExternalOf(inputs)
    ensures exists k :: 0 <= k < |inputs| && inputs[k].id == id
  {
    if inputs[0].kind.External? && inputs[0].id == id {
      assert inputs[0].id == id;
    } else {
      ExternalIsInput(inputs[1..], id);
      var k :| 0 <= k < |inputs[1..]| && inputs[1..][k].id == id;
      assert inputs[k + 1].id == id;
    }
  }

  lemma NewAtEnd(ids: seq<string>, id: string)
    requires Distinct(ids) && id !in ids
    ensures Distinct(ids + [id])
  {
  }

  /** External IDs of distinct inputs, behind IDs that none of them has. */
  lemma {:induction false} ExternalDistinct(known: seq<string>, inputs: seq<Input>)
    requires Distinct(known)
    requires forall i, j :: 0 <= i < j < |inputs| ==> inputs[i].id != inputs[j].id
    requires forall i :: 0 <= i < |inputs| ==> inputs[i].id !in known
    ensures Distinct(known + ExternalOf(inputs))
    decreases |inputs|
  {
    if inputs == [] {
      assert known + ExternalOf(inputs) == known;
    } else {
      var rest := inputs[1..];
      if inputs[0].kind.External? {
        var more := known + [inputs[0].id];
        NewAtEnd(known, inputs[0].id);
        assert more + ExternalOf(rest) == known + ExternalOf(inputs);
        hide ExternalOf;
        ExternalDistinct(more, rest);
      } else {
        assert ExternalOf(inputs) == ExternalOf(rest);
        ExternalDistinct(known, rest);
      }
    }
  }

  class Inbox {
    var seen: set<string>
    var queued: seq<Input>
    ghost const seeds: set<string>
    ghost var submitted: seq<Input>
    ghost var delivered: seq<Input>

    /** Delivered and queued inputs are the first arrivals of what was submitted. */
    ghost predicate Valid()
      reads this
    {
      && seen == seeds + IdsOf(submitted)
      && delivered + queued == FirstArrivals(seeds, submitted)
    }

    /** The IDs of a resumed session count as seen; an empty one is refused. */
    static method New(seenIDs: seq<string>) returns (inbox: Option<Inbox>)
      ensures inbox.None? <==> "" in seenIDs
      ensures inbox.Some? ==> fresh(inbox.value) && inbox.value.Valid()
                              && inbox.value.seeds == (set id | id in seenIDs) && inbox.value.submitted == []
    {
      var seen: set<string> := {};
      var index := 0;
      while index < |seenIDs|
        invariant 0 <= index <= |seenIDs|
        invariant "" !in seenIDs[..index]
        invariant seen == set id | id in seenIDs[..index]
      {
        assert seenIDs[..index + 1] == seenIDs[..index] + [seenIDs[index]];
        if seenIDs[index] == "" {
          return None;
        }
        seen := seen + {seenIDs[index]};
        index := index + 1;
      }
      assert seenIDs[..index] == seenIDs;
      var made := new Inbox(seen);
      inbox := Some(made);
    }

    constructor (seen: set<string>)
      ensures Valid() && seeds == seen && submitted == [] && delivered == [] && queued == []
    {
      this.seen := seen;
      queued := [];
      seeds := seen;
      submitted, delivered := [], [];
    }

    /** An invalid input is refused; a duplicate is dropped. */
    method Submit(input: Input) returns (ok: bool)
      requires Valid()
      modifies this
      ensures Valid() && ok == ValidInput(input)
      ensures ok <==>
                && input.id != "" && (input.payload.Json? ==> input.payload.valid)
                && (input.kind.External? || input.kind.Crash? || (input.kind.Control? && input.kind.message.Some?))
      ensures submitted == if ok then old(submitted) + [input] else old(submitted)
      ensures delivered == old(delivered)
    {
      if !ValidInput(input) {
        return false;
      }
      submitted := submitted + [input];
      assert submitted[..|submitted| - 1] == old(submitted);
      IdsMore(old(submitted), input);
      ok := true;
      if input.id in seen {
        return;
      }
      seen := seen + {input.id};
      queued := queued + [input];
      assert delivered + queued == old(delivered + queued) + [input];
    }

    /** The oldest input goes out. */
    method Take() returns (next: Option<Input>)
      requires Valid()
      modifies this`queued, this`delivered
      ensures Valid()
      ensures next.None? ==> delivered == old(delivered) && old(queued) == []
      ensures next.Some? ==> delivered == old(delivered) + [next.value]
    {
      if queued == [] {
        return None;
      }
      next := Some(queued[0]);
      delivered := delivered + [queued[0]];
      queued := queued[1..];
      assert delivered + queued == old(delivered + queued);
    }

    /** What goes out was never taken before, in this run or in the history it resumed from. */
    lemma DeliveredOnce(resumed: seq<string>)
      requires Valid() && seeds == (set id | id in resumed) && Distinct(resumed)
      ensures forall i, j :: 0 <= i < j < |delivered| ==> delivered[i].id != delivered[j].id
      ensures forall i :: 0 <= i < |delivered| ==> delivered[i].id !in resumed
      ensures delivered <= FirstArrivals(seeds, submitted)
      ensures Distinct(resumed + ExternalOf(delivered))
    {
      ArrivalsOnce(seeds, submitted);
      var out := FirstArrivals(seeds, submitted);
      forall i | 0 <= i < |delivered|
        ensures delivered[i] == out[i] && delivered[i].id !in resumed
      {
        assert out[i] == (delivered + queued)[i];
        assert out[i] in out && out[i].id in IdsOf(out);
      }
      ExternalDistinct(resumed, delivered);
    }
  }
}

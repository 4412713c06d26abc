/** What a run does towards the model and the operation manager, in order. */
module Trace {
  import opened Options
  import opened SessionHistory
  import opened SessionTypes

  datatype Act =
    | Asked(turnID: string, request: seq<ModelItem>)
    | Recorded(turnID: string, output: seq<ModelItem>, context: seq<ModelItem>)
    | Dispatched(id: string)
    | HardStopped
    | Canceled(id: string)

  datatype Question = Question(turnID: string, request: seq<ModelItem>)

  function ContextOf(act: Act): Option<seq<ModelItem>> {
    match act
    case Asked(_, request) => Some(request)
    case Recorded(_, _, context) => Some(context)
    case _ => None
  }

  /** The latest request. */
  function LastAsked(acts: seq<Act>): Option<Question> {
    if acts == [] then None
    else if Last(acts).Asked? then Some(Question(Last(acts).turnID, Last(acts).request))
    else LastAsked(Front(acts))
  }

  /** Requests and recorded exchanges only ever extend each other, up to what is committed. */
  ghost predicate Extends(acts: seq<Act>, committed: seq<ModelItem>) {
    acts == [] ||
    match Last(acts)
    case Asked(_, request) => request <= committed && Extends(Front(acts), request)
    case Recorded(_, _, context) => context <= committed && Extends(Front(acts), context)
    case _ => Extends(Front(acts), committed)
  }

  /** Every recorded response answers the latest request, and joins the context right after it. */
  ghost predicate AnswersLatest(acts: seq<Act>) {
    acts == [] ||
    (&& AnswersLatest(Front(acts))
     && (Last(acts).Recorded? ==>
           && LastAsked(Front(acts)).Some?
           && LastAsked(Front(acts)).value.turnID == Last(acts).turnID
           && Last(acts).context == LastAsked(Front(acts)).value.request + Last(acts).output))
  }

  ghost predicate Stopped(acts: seq<Act>) {
    HardStopped in acts
  }

  /** What may still be done after a hard stop: cancel what runs. */
  predicate Quiet(act: Act) {
    act.HardStopped? || act.Canceled?
  }

  /** Nothing is asked, recorded or dispatched after a hard stop. */
  ghost predicate QuietAfterStop(acts: seq<Act>) {
    acts == [] || (QuietAfterStop(Front(acts)) && (Stopped(Front(acts)) ==> Quiet(Last(acts))))
  }

  /** Only operations the session has initialized are dispatched. */
  ghost predicate DispatchesKnown(acts: seq<Act>, known: set<string>) {
    forall act :: act in acts && act.Dispatched? ==> act.id in known
  }

  /** The context of the latest act that has one. */
  function Bound(acts: seq<Act>): seq<ModelItem> {
    if acts == [] then []
    else if ContextOf(Last(acts)).Some? then ContextOf(Last(acts)).value
    else Bound(Front(acts))
  }

  /** What every trace of a run satisfies, however the run ends. */
  ghost predicate Told(acts: seq<Act>, known: set<string>) {
    Extends(acts, Bound(acts)) && AnswersLatest(acts) && QuietAfterStop(acts) && DispatchesKnown(acts, known)
  }

  lemma {:induction false} ExtendsMore(acts: seq<Act>, committed: seq<ModelItem>, more: seq<ModelItem>)
    requires Extends(acts, committed) && committed <= more
    ensures Extends(acts, more)
  {
    if acts != [] && !Last(acts).Asked? && !Last(acts).Recorded? {
      ExtendsMore(Front(acts), committed, more);
    }
  }

  lemma ToldGrows(acts: seq<Act>, known: set<string>, more: set<string>)
    requires Told(acts, known) && known <= more
    ensures Told(acts, more)
  {
  }

  /** One act more, within what is committed. */
  lemma ToldActs(acts: seq<Act>, act: Act, committed: seq<ModelItem>, known: set<string>)
    requires Told(acts, known) && Bound(acts) <= committed
    requires Stopped(acts) ==> Quiet(act)
    requires act.Asked? ==> act.request == committed
    requires act.Recorded? ==>
               && LastAsked(acts).Some? && LastAsked(acts).value.turnID == act.turnID
               && LastAsked(acts).value.request == committed && act.context == committed + act.output
    requires act.Dispatched? ==> act.id in known
    ensures Told(acts + [act], known)
    ensures Bound(acts + [act]) <= if act.Recorded? then act.context else committed
    ensures LastAsked(acts + [act]) == if act.Asked? then Some(Question(act.turnID, act.request)) else LastAsked(acts)
    ensures Stopped(acts + [act]) <==> Stopped(acts) || act.HardStopped?
  {
    assert Front(acts + [act]) == acts && Last(acts + [act]) == act;
    if ContextOf(act).Some? {
      ExtendsMore(acts, Bound(acts), ContextOf(act).value);
    }
  }

  /** A run is told on, never anew. */
  lemma PrefixOf<T>(a: seq<T>, b: seq<T>, c: seq<T>)
    requires a <= b <= c
    ensures a <= c
  {
  }

  /** Every context of the acts has some items in front. */
  ghost predicate Based(acts: seq<Act>, base: seq<ModelItem>) {
    acts == [] ||
    (&& Based(Front(acts), base)
     && (ContextOf(Last(acts)).Some? ==> base <= ContextOf(Last(acts)).value))
  }

  lemma BasedMore(acts: seq<Act>, act: Act, base: seq<ModelItem>)
    ensures Based(acts + [act], base) <==>
            Based(acts, base) && (ContextOf(act).Some? ==> base <= ContextOf(act).value)
  {
    assert Front(acts + [act]) == acts && Last(acts + [act]) == act;
  }

  lemma {:induction false} AskedLater(before: seq<Act>, acts: seq<Act>)
    ensures LastAsked(before + acts) == if LastAsked(acts).Some? then LastAsked(acts) else LastAsked(before)
    ensures Bound(before + acts) == Bound(acts) || (Bound(acts) == [] && Bound(before + acts) == Bound(before))
  {
    if acts == [] {
      assert before + acts == before;
    } else {
      assert Front(before + acts) == before + Front(acts) && Last(before + acts) == Last(acts);
      AskedLater(before, Front(acts));
    }
  }

  /** A run that starts from what an earlier one left continues its requests. */
  lemma {:induction false} RunsJoin(before: seq<Act>, acts: seq<Act>, base: seq<ModelItem>, committed: seq<ModelItem>)
    requires Extends(before, base) && AnswersLatest(before)
    requires Extends(acts, committed) && AnswersLatest(acts) && Based(acts, base) && base <= committed
    ensures Extends(before + acts, committed) && AnswersLatest(before + acts)
  {
    if acts == [] {
      assert before + acts == before;
      ExtendsMore(before, base, committed);
    } else {
      assert Front(before + acts) == before + Front(acts) && Last(before + acts) == Last(acts);
      var bound := if ContextOf(Last(acts)).Some? then ContextOf(Last(acts)).value else committed;
      RunsJoin(before, Front(acts), base, bound);
      AskedLater(before, Front(acts));
    }
  }

  // What a sound trace says about any two of its acts.

  lemma {:induction false} WithinCommitted(acts: seq<Act>, committed: seq<ModelItem>, i: nat)
    requires Extends(acts, committed) && i < |acts| && ContextOf(acts[i]).Some?
    ensures ContextOf(acts[i]).value <= committed
  {
    if i < |acts| - 1 {
      var bound := if ContextOf(Last(acts)).Some? then ContextOf(Last(acts)).value else committed;
      WithinCommitted(Front(acts), bound, i);
      PrefixThrough(ContextOf(acts[i]).value, bound, committed);
    }
  }

  lemma PrefixThrough(a: seq<ModelItem>, b: seq<ModelItem>, c: seq<ModelItem>)
    requires a <= b <= c
    ensures a <= c
  {
  }

  /** Every request sent is a prefix of every later request, and so is every recorded exchange. */
  lemma {:induction false} RequestsExtend(acts: seq<Act>, committed: seq<ModelItem>, i: nat, j: nat)
    requires Extends(acts, committed) && i < j < |acts| && ContextOf(acts[i]).Some? && ContextOf(acts[j]).Some?
    ensures ContextOf(acts[i]).value <= ContextOf(acts[j]).value
  {
    var front := Front(acts);
    if j == |acts| - 1 {
      WithinCommitted(front, ContextOf(acts[j]).value, i);
    } else {
      var bound := if ContextOf(Last(acts)).Some? then ContextOf(Last(acts)).value else committed;
      RequestsExtend(front, bound, i, j);
    }
  }

  /** A recorded response is in every later request, immediately after the input it answers. */
  lemma {:induction false} ResponseFollowsRequest(acts: seq<Act>, committed: seq<ModelItem>, i: nat, j: nat)
    requires Extends(acts, committed) && AnswersLatest(acts)
    requires i < j < |acts| && acts[i].Recorded? && acts[j].Asked?
    ensures LastAsked(acts[..i]).Some?
    ensures LastAsked(acts[..i]).value.turnID == acts[i].turnID
    ensures LastAsked(acts[..i]).value.request + acts[i].output <= acts[j].request
  {
    RequestsExtend(acts, committed, i, j);
    AnswersAt(acts, i);
  }

  lemma {:induction false} AnswersAt(acts: seq<Act>, i: nat)
    requires AnswersLatest(acts) && i < |acts| && acts[i].Recorded?
    ensures LastAsked(acts[..i]).Some? && LastAsked(acts[..i]).value.turnID == acts[i].turnID
    ensures acts[i].context == LastAsked(acts[..i]).value.request + acts[i].output
  {
    if i < |acts| - 1 {
      assert Front(acts)[..i] == acts[..i];
      AnswersAt(Front(acts), i);
    }
  }

  /** After a hard stop there is no request, no recorded response and no dispatch. */
  lemma {:induction false} StopIsFinal(acts: seq<Act>, i: nat, j: nat)
    requires QuietAfterStop(acts) && i < j < |acts| && acts[i].HardStopped?
    ensures Quiet(acts[j])
  {
    if j < |acts| - 1 {
      StopIsFinal(Front(acts), i, j);
    } else {
      assert Front(acts)[i] == acts[i];
    }
  }

  // The same silence, read off the items the run has stored.

  predicate IsHardStop(data: ItemData) {
    data.InputItem? && data.input.kind.Control? && data.input.kind.message.Some?
      && data.input.kind.message.value.mode.StopHard?
  }

  /** A hard stop among the items from `origin` on. */
  predicate StopStored(items: seq<Item>, origin: nat) {
    |items| > origin && (IsHardStop(Last(items).data) || StopStored(Front(items), origin))
  }

  /** From `origin` on, no turn starts and no response is stored once a hard stop is. */
  predicate QuietItems(items: seq<Item>, origin: nat) {
    |items| <= origin ||
    (&& QuietItems(Front(items), origin)
     && (Last(items).data.TurnItem? || Last(items).data.ResponseItem? ==> !StopStored(Front(items), origin)))
  }

  lemma ItemsMore(items: seq<Item>, item: Item, origin: nat)
    requires origin <= |items|
    ensures StopStored(items + [item], origin) <==> StopStored(items, origin) || IsHardStop(item.data)
    ensures QuietItems(items + [item], origin) <==>
            QuietItems(items, origin) && (item.data.TurnItem? || item.data.ResponseItem? ==> !StopStored(items, origin))
  {
    assert Front(items + [item]) == items && Last(items + [item]) == item;
  }

  /** What the recursion says of any two items. */
  lemma {:induction false} QuietMeans(items: seq<Item>, origin: nat, i: nat, j: nat)
    requires QuietItems(items, origin) && origin <= i < j < |items| && IsHardStop(items[i].data)
    ensures !items[j].data.TurnItem? && !items[j].data.ResponseItem?
  {
    if j < |items| - 1 {
      QuietMeans(Front(items), origin, i, j);
    } else {
      StopFound(Front(items), origin, i);
    }
  }

  lemma {:induction false} StopFound(items: seq<Item>, origin: nat, i: nat)
    requires origin <= i < |items| && IsHardStop(items[i].data)
    ensures StopStored(items, origin)
  {
    if i < |items| - 1 {
      StopFound(Front(items), origin, i);
    }
  }
}

/** The model's context: a committed prefix that only grows, and a staged suffix. */
module ContextBuilder {
  import opened SessionTypes

  const RUNNING_PAYLOAD :=
    "Tool call is still running. Its result arrives in a later turn: continue with independent work, "
    + "or end your turn to wait for it."

  const RUNNING_OUTPUT: seq<ToolOutput> := [TextOutput(RUNNING_PAYLOAD)]

  datatype Context = Context(committed: seq<ModelItem>, staged: seq<ModelItem>, effort: string) {
    /** What the next request would send. */
    function Built(): seq<ModelItem> {
      committed + staged
    }
  }

  /** The context of a builder that was just made. */
  function NewContext(system: string): Context {
    Context([Message("system", system)], [], "")
  }

  predicate IsPlaceholder(item: ModelItem, callID: string) {
    item == ResultItem(callID, RUNNING_OUTPUT)
  }

  /** The items without the placeholders of one call, in order. */
  function WithoutPlaceholder(items: seq<ModelItem>, callID: string): (r: seq<ModelItem>)
    ensures |r| <= |items|
  {
    if items == [] then []
    else
      WithoutPlaceholder(items[..|items| - 1], callID) +
      if IsPlaceholder(items[|items| - 1], callID) then [] else [items[|items| - 1]]
  }

  function AddUserText(c: Context, text: string): Context {
    c.(staged := c.staged + [Message("user", text)])
  }

  function AddControl(c: Context, message: ControlMessage): Context {
    match message.mode
    case UpdateSettings(effort) => c.(effort := effort)
    case Heartbeat => AddUserText(c, message.reason)
    case _ => c
  }

  function AddOutput(c: Context, output: seq<ModelItem>): Context {
    c.(committed := c.committed + output)
  }

  function AddResult(c: Context, callID: string, output: seq<ToolOutput>, running: bool): Context {
    c.(staged := WithoutPlaceholder(c.staged, callID)
      + [ResultItem(callID, if running then RUNNING_OUTPUT else output)])
  }

  function Commit(c: Context): Context {
    c.(committed := c.committed + c.staged, staged := [])
  }

  /** A running call shows one placeholder at most, and its result replaces the one still staged. */
  lemma {:induction false} PlaceholderReplaced(items: seq<ModelItem>, callID: string, item: ModelItem)
    ensures item in WithoutPlaceholder(items, callID) <==> item in items && !IsPlaceholder(item, callID)
    ensures (forall k :: 0 <= k < |items| ==> !IsPlaceholder(items[k], callID)) ==>
            WithoutPlaceholder(items, callID) == items
  {
    hide IsPlaceholder;
    if items != [] {
      var front := items[..|items| - 1];
      PlaceholderReplaced(front, callID, item);
      assert items == front + [items[|items| - 1]];
      assert item in items <==> item in front || item == items[|items| - 1];
    }
  }

  lemma OnePlaceholder(c: Context, callID: string, output: seq<ToolOutput>, running: bool, other: string)
    ensures var staged := AddResult(c, callID, output, running).staged;
            && staged != [] && (forall k :: 0 <= k < |staged| - 1 ==> !IsPlaceholder(staged[k], callID))
            && staged[|staged| - 1] == ResultItem(callID, if running then RUNNING_OUTPUT else output)
            && (other != callID ==> (ResultItem(other, RUNNING_OUTPUT) in staged <==>
               ResultItem(other, RUNNING_OUTPUT) in c.staged))
    ensures AddResult(c, callID, output, running).committed == c.committed
  {
    var kept := WithoutPlaceholder(c.staged, callID);
    PlaceholderReplaced(c.staged, callID, ResultItem(callID, RUNNING_OUTPUT));
    PlaceholderReplaced(c.staged, callID, ResultItem(other, RUNNING_OUTPUT));
    forall k | 0 <= k < |kept|
      ensures !IsPlaceholder(kept[k], callID)
    {
      assert kept[k] in kept;
    }
  }

  class Builder {
    var committedPrefix: seq<ModelItem>
    var stagedSuffix: seq<ModelItem>
    var effort: string

    ghost function View(): Context
      reads this
    {
      Context(committedPrefix, stagedSuffix, effort)
    }

    constructor (system: string)
      ensures View() == NewContext(system)
    {
      committedPrefix := [Message("system", system)];
      stagedSuffix := [];
      effort := "";
    }

    method AddExternalInput(text: string)
      modifies this
      ensures View() == AddUserText(old(View()), text)
    {
      stagedSuffix := stagedSuffix + [Message("user", text)];
    }

    method AddControlMessage(message: ControlMessage)
      modifies this
      ensures View() == AddControl(old(View()), message)
    {
      match message.mode
      case UpdateSettings(value) => effort := value;
      case Heartbeat => stagedSuffix := stagedSuffix + [Message("user", message.reason)];
      case _ =>
    }

    method AddModelResponse(output: seq<ModelItem>)
      modifies this
      ensures View() == AddOutput(old(View()), output)
    {
      committedPrefix := committedPrefix + output;
    }

    method AddToolResult(callID: string, payload: seq<ToolOutput>, running: bool)
      modifies this
      ensures View() == AddResult(old(View()), callID, payload, running)
    {
      var shown := if running then RUNNING_OUTPUT else payload;
      var kept: seq<ModelItem> := [];
      var index := 0;
      while index < |stagedSuffix|
        invariant 0 <= index <= |stagedSuffix|
        invariant kept == WithoutPlaceholder(stagedSuffix[..index], callID)
      {
        assert stagedSuffix[..index + 1][..index] == stagedSuffix[..index];
        if !IsPlaceholder(stagedSuffix[index], callID) {
          kept := kept + [stagedSuffix[index]];
        }
        index := index + 1;
      }
      assert stagedSuffix[..index] == stagedSuffix;
      stagedSuffix := kept + [ResultItem(callID, shown)];
    }

    method CommitStaged()
      modifies this
      ensures View() == Commit(old(View()))
    {
      committedPrefix := committedPrefix + stagedSuffix;
      stagedSuffix := [];
    }

    method Build() returns (input: seq<ModelItem>)
      ensures input == View().Built()
    {
      input := committedPrefix + stagedSuffix;
    }
  }
}

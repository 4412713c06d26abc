/** The incremental frame splitter for server-sent event streams. `Feed` is the
    splitter read one byte at a time; the class `Framer` is the Go object, which
    consumes whole line segments and must agree with it. */
module SseFramer {
  import opened Bytes

  datatype Delimiter = Strip | PassThrough

  datatype Settings = Settings(maximum: nat, delimiter: Delimiter)

  datatype Frame = Frame(offset: nat, data: Octets)

  /** The framer's fields between two bytes. */
  datatype Machine = Machine(
    wire: nat,
    emitted: nat,
    frame: Octets,
    delimiterStart: nat,
    lineHasData: bool,
    afterCR: bool,
    endedAtCR: bool,
    endedWire: nat)

  const INITIAL := Machine(0, 0, [], 0, false, false, false, 0)

  ghost predicate Coherent(m: Machine, settings: Settings) {
    && m.wire == |m.frame| <= settings.maximum
    && m.delimiterStart <= |m.frame|
    && (m.frame == [] ==> !m.lineHasData)
    && (m.afterCR ==> !m.lineHasData)
    && (m.endedAtCR ==> m.afterCR && m.frame == [])
    && (if m.endedAtCR then m.endedWire <= settings.maximum else m.endedWire == 0)
  }

  datatype Outcome = More(machine: Machine, frames: seq<Frame>) | TooLarge(frames: seq<Frame>)

  function LeaveCR(m: Machine): Machine {
    if m.afterCR then m.(afterCR := false, endedAtCR := false, endedWire := 0) else m
  }

  /** The frame held so far, cut at the delimiter when delimiters are stripped. */
  function Held(m: Machine, settings: Settings): Octets
    requires m.delimiterStart <= |m.frame|
  {
    if settings.delimiter == Strip then m.frame[..m.delimiterStart] else m.frame
  }

  function Take(m: Machine, settings: Settings): Machine
    requires m.delimiterStart <= |m.frame|
  {
    m.(emitted := m.emitted + |Held(m, settings)|, wire := 0, frame := [], delimiterStart := 0)
  }

  function Emit(m: Machine, frames: seq<Frame>, settings: Settings): seq<Frame>
    requires m.delimiterStart <= |m.frame|
  {
    frames + [Frame(m.emitted, Held(m, settings))]
  }

  /** A line feed that completes the CRLF whose CR already ended a frame. */
  function TrailingLF(m: Machine, frames: seq<Frame>, settings: Settings): Outcome {
    var rest := m.(afterCR := false, endedAtCR := false, endedWire := 0);
    if m.endedWire >= settings.maximum then
      TooLarge(frames)
    else if settings.delimiter == Strip then
      More(rest, frames)
    else if frames == [] then
      More(rest.(emitted := m.emitted + 1), [Frame(m.emitted, [LF])])
    else
      var last := frames[|frames| - 1];
      More(rest.(emitted := m.emitted + 1), frames[..|frames| - 1] + [last.(data := last.data + [LF])])
  }

  /** The held bytes have just grown by the line ending `b`; a blank line ends the frame. */
  function EndLine(m: Machine, b: byte, frames: seq<Frame>, settings: Settings): Outcome
    requires m.delimiterStart <= |m.frame| && m.frame != []
  {
    if m.lineHasData then
      More(m.(delimiterStart := |m.frame| - 1, lineHasData := false, afterCR := b == CR, endedAtCR := false), frames)
    else if b == CR then
      More(Take(m, settings).(afterCR := true, endedAtCR := true, endedWire := m.wire), Emit(m, frames, settings))
    else
      More(Take(m, settings), Emit(m, frames, settings))
  }

  /** One byte: `frames` are those already emitted from the current chunk. */
  function Step(m: Machine, b: byte, frames: seq<Frame>, settings: Settings): Outcome
    requires Coherent(m, settings)
  {
    if m.afterCR && b == LF && m.endedAtCR then
      TrailingLF(m, frames, settings)
    else if m.wire + 1 > settings.maximum then
      TooLarge(frames)
    else
      var grown := m.(frame := m.frame + [b], wire := m.wire + 1);
      if m.afterCR && b == LF then
        More(grown.(afterCR := false), frames)
      else
        var moved := LeaveCR(grown);
        if b != CR && b != LF then
          More(moved.(lineHasData := true), frames)
        else
          EndLine(moved, b, frames, settings)
  }

  lemma StepCoherent(m: Machine, b: byte, frames: seq<Frame>, settings: Settings)
    requires Coherent(m, settings)
    ensures var o := Step(m, b, frames, settings); o.More? ==> Coherent(o.machine, settings)
  {
  }

  /** A whole chunk, byte by byte. */
  function Feed(m: Machine, bytes: Octets, frames: seq<Frame>, settings: Settings): (o: Outcome)
    requires Coherent(m, settings)
    ensures o.More? ==> Coherent(o.machine, settings)
    decreases |bytes|
  {
    if bytes == [] then
      More(m, frames)
    else
      StepCoherent(m, bytes[0], frames, settings);
      match Step(m, bytes[0], frames, settings)
      case TooLarge(done) => TooLarge(done)
      case More(next, done) => Feed(next, bytes[1..], done, settings)
  }

  function AndThen(o: Outcome, bytes: Octets, settings: Settings): Outcome
    requires o.More? ==> Coherent(o.machine, settings)
  {
    match o
    case TooLarge(_) => o
    case More(m, frames) => Feed(m, bytes, frames, settings)
  }

  /** Feeding a chunk is feeding its first part and then the rest. */
  lemma {:induction false} FeedSplit(m: Machine, a: Octets, b: Octets, frames: seq<Frame>, settings: Settings)
    requires Coherent(m, settings)
    ensures Feed(m, a + b, frames, settings) == AndThen(Feed(m, a, frames, settings), b, settings)
    decreases |a|
  {
    if a == [] {
      assert a + b == b;
    } else {
      assert (a + b)[1..] == a[1..] + b;
      StepCoherent(m, a[0], frames, settings);
      var o := Step(m, a[0], frames, settings);
      if o.More? {
        FeedSplit(o.machine, a[1..], b, o.frames, settings);
      }
    }
  }

  lemma LeavingCR(m: Machine, bytes: Octets, frames: seq<Frame>, settings: Settings)
    requires Coherent(m, settings) && bytes != [] && !(m.afterCR && bytes[0] == LF)
    ensures Feed(LeaveCR(m), bytes, frames, settings) == Feed(m, bytes, frames, settings)
  {
    assert Step(LeaveCR(m), bytes[0], frames, settings) == Step(m, bytes[0], frames, settings);
  }

  ghost predicate Plain(bytes: Octets) {
    forall i :: 0 <= i < |bytes| ==> bytes[i] != CR && bytes[i] != LF
  }

  /** Bytes without a line ending only grow the frame, or overflow it. */
  lemma {:induction false} FeedPlain(m: Machine, bytes: Octets, frames: seq<Frame>, settings: Settings)
    requires Coherent(m, settings) && !m.afterCR && Plain(bytes)
    ensures Feed(m, bytes, frames, settings) ==
            if m.wire + |bytes| > settings.maximum then TooLarge(frames)
            else More(m.(frame := m.frame + bytes, wire := m.wire + |bytes|,
                         lineHasData := m.lineHasData || bytes != []), frames)
    decreases |bytes|
  {
    if bytes == [] {
      assert m.frame + bytes == m.frame;
    } else {
      StepCoherent(m, bytes[0], frames, settings);
      var o := Step(m, bytes[0], frames, settings);
      if o.More? {
        FeedPlain(o.machine, bytes[1..], frames, settings);
        assert m.frame + [bytes[0]] + bytes[1..] == m.frame + bytes;
      }
    }
  }

  /** One line segment: plain bytes and the line ending that follows them. */
  lemma FeedSegment(m: Machine, bytes: Octets, ending: byte, frames: seq<Frame>, settings: Settings)
    requires Coherent(m, settings) && !m.afterCR && Plain(bytes) && (ending == CR || ending == LF)
    ensures Feed(m, bytes + [ending], frames, settings) ==
            if m.wire + |bytes| + 1 > settings.maximum then TooLarge(frames)
            else
              var grown := m.(frame := m.frame + bytes, wire := m.wire + |bytes|,
                              lineHasData := m.lineHasData || bytes != []);
              Step(grown, ending, frames, settings)
  {
    FeedSplit(m, bytes, [ending], frames, settings);
    FeedPlain(m, bytes, frames, settings);
    if m.wire + |bytes| <= settings.maximum {
      var grown := m.(frame := m.frame + bytes, wire := m.wire + |bytes|,
                      lineHasData := m.lineHasData || bytes != []);
      StepCoherent(grown, ending, frames, settings);
      assert [ending][1..] == [];
      assert Feed(grown, [ending], frames, settings) == Step(grown, ending, frames, settings);
    }
  }

  /** The index of the first CR or LF, or the length when there is none. */
  method IndexLineEnding(bytes: Octets) returns (i: nat)
    ensures i <= |bytes| && Plain(bytes[..i])
    ensures i < |bytes| ==> bytes[i] == CR || bytes[i] == LF
  {
    i := 0;
    while i < |bytes| && bytes[i] != CR && bytes[i] != LF
      invariant i <= |bytes| && Plain(bytes[..i])
    {
      i := i + 1;
    }
  }

  class Framer {
    const maximumFrameSize: nat
    const frameDelimiter: Delimiter
    var frameWireSize: nat
    var emittedOffset: nat
    var frame: Octets
    var delimiterStart: nat
    var lineHasData: bool
    var afterCR: bool
    var frameEndedAtCR: bool
    var endedFrameWireSize: nat

    ghost function Config(): Settings {
      Settings(maximumFrameSize, frameDelimiter)
    }

    ghost function State(): Machine
      reads this
    {
      Machine(frameWireSize, emittedOffset, frame, delimiterStart, lineHasData, afterCR, frameEndedAtCR,
        endedFrameWireSize)
    }

    ghost predicate Valid()
      reads this
    {
      Coherent(State(), Config())
    }

    constructor (maximumFrameSize: nat, frameDelimiter: Delimiter)
      ensures Valid() && State() == INITIAL
      ensures this.maximumFrameSize == maximumFrameSize && this.frameDelimiter == frameDelimiter
    {
      this.maximumFrameSize := maximumFrameSize;
      this.frameDelimiter := frameDelimiter;
      frameWireSize, emittedOffset, frame, delimiterStart := 0, 0, [], 0;
      lineHasData, afterCR, frameEndedAtCR, endedFrameWireSize := false, false, false, 0;
    }

    method AppendFrameBytes(bytes: Octets) returns (ok: bool)
      modifies this`frame, this`frameWireSize
      ensures ok == (old(frameWireSize) + |bytes| <= maximumFrameSize)
      ensures ok ==> frame == old(frame) + bytes && frameWireSize == old(frameWireSize) + |bytes|
      ensures !ok ==> frame == old(frame) && frameWireSize == old(frameWireSize)
    {
      if |bytes| > maximumFrameSize - frameWireSize {
        return false;
      }
      frame := frame + bytes;
      frameWireSize := frameWireSize + |bytes|;
      return true;
    }

    method TakeFrame(delimiterStart: nat) returns (taken: Frame)
      requires delimiterStart <= |frame|
      modifies this
      ensures State() == Take(old(State()).(delimiterStart := delimiterStart), Config())
      ensures taken == Frame(old(emittedOffset), Held(old(State()).(delimiterStart := delimiterStart), Config()))
    {
      var data := frame;
      if frameDelimiter == Strip {
        data := data[..delimiterStart];
      }
      taken := Frame(emittedOffset, data);
      emittedOffset := emittedOffset + |data|;
      frameWireSize := 0;
      frame := [];
      this.delimiterStart := 0;
    }

    method AcceptTrailingLF(emitted: seq<Frame>) returns (frames: seq<Frame>, ok: bool)
      requires Valid() && afterCR && frameEndedAtCR
      modifies this
      ensures ok ==> Valid()
      ensures (if ok then More(State(), frames) else TooLarge(frames)) == TrailingLF(old(State()), emitted, Config())
    {
      frames := emitted;
      if endedFrameWireSize >= maximumFrameSize {
        return frames, false;
      }
      endedFrameWireSize := endedFrameWireSize + 1;
      if frameDelimiter == PassThrough {
        if |frames| != 0 {
          var last := frames[|frames| - 1];
          frames := frames[..|frames| - 1] + [last.(data := last.data + [LF])];
        } else {
          frames := frames + [Frame(emittedOffset, [LF])];
        }
        emittedOffset := emittedOffset + 1;
      }
      afterCR := false;
      frameEndedAtCR := false;
      endedFrameWireSize := 0;
      ok := true;
    }

    method AcceptLineEnding(character: byte, emitted: seq<Frame>) returns (frames: seq<Frame>)
      requires character == CR || character == LF
      requires delimiterStart <= |frame| && frame != [] && !afterCR && !frameEndedAtCR && endedFrameWireSize == 0
      modifies this
      ensures More(State(), frames) == EndLine(old(State()), character, emitted, Config())
    {
      frames := emitted;
      if character == CR {
        frameEndedAtCR := !lineHasData;
        if lineHasData {
          delimiterStart := |frame| - 1;
        }
        lineHasData := false;
        afterCR := true;
        if frameEndedAtCR {
          endedFrameWireSize := frameWireSize;
          var taken := TakeFrame(delimiterStart);
          frames := frames + [taken];
        }
      } else {
        if lineHasData {
          delimiterStart := |frame| - 1;
        } else {
          var taken := TakeFrame(delimiterStart);
          frames := frames + [taken];
        }
        lineHasData := false;
      }
    }

    /** The line feed of a CRLF: it belongs to the frame just ended, or to the one being held. */
    method AcceptLF(emitted: seq<Frame>) returns (frames: seq<Frame>, ok: bool)
      requires Valid() && afterCR
      modifies this
      ensures ok ==> Valid()
      ensures (if ok then More(State(), frames) else TooLarge(frames)) == Step(old(State()), LF, emitted, Config())
    {
      frames := emitted;
      if frameEndedAtCR {
        frames, ok := AcceptTrailingLF(frames);
      } else {
        ok := AppendFrameBytes([LF]);
        if ok {
          afterCR := false;
        }
      }
    }

    /** Plain bytes up to and including the next line ending, or to the end of the chunk. */
    method AcceptSegment(encoded: Octets, emitted: seq<Frame>) returns (frames: seq<Frame>, rest: Octets, ok: bool)
      requires Valid() && !afterCR && encoded != []
      modifies this
      ensures ok ==> Valid() && |rest| < |encoded|
      ensures Feed(old(State()), encoded, emitted, Config()) ==
              if ok then Feed(State(), rest, frames, Config()) else TooLarge(frames)
    {
      frames := emitted;
      rest := [];
      ghost var before := State();
      var lineEnding := IndexLineEnding(encoded);
      if lineEnding == |encoded| {
        assert encoded[..lineEnding] == encoded;
        FeedPlain(before, encoded, frames, Config());
        ok := AppendFrameBytes(encoded);
        if ok {
          lineHasData := true;
        }
        return;
      }
      ghost var plain := encoded[..lineEnding];
      var segment := encoded[..lineEnding + 1];
      var character := segment[lineEnding];
      rest := encoded[lineEnding + 1..];
      assert segment == plain + [character];
      assert encoded == segment + rest;
      FeedSplit(before, segment, rest, frames, Config());
      FeedSegment(before, plain, character, frames, Config());
      ok := AppendFrameBytes(segment);
      if !ok {
        return;
      }
      if lineEnding != 0 {
        lineHasData := true;
      }
      assert before.frame + segment == before.frame + plain + [character];
      frames := AcceptLineEnding(character, frames);
    }

    /** Consumes a chunk segment by segment; the result is that of `Feed`. */
    method Append(chunk: Octets) returns (frames: seq<Frame>, ok: bool)
      requires Valid()
      modifies this
      ensures var fed := Feed(old(State()), chunk, [], Config());
              frames == fed.frames && ok == fed.More? && (ok ==> Valid() && State() == fed.machine)
    {
      frames := [];
      var encoded := chunk;
      ghost var goal := Feed(State(), chunk, [], Config());
      while encoded != []
        invariant Valid() && goal == Feed(State(), encoded, frames, Config())
        decreases |encoded|
      {
        if afterCR && encoded[0] == LF {
          frames, ok := AcceptLF(frames);
          encoded := encoded[1..];
        } else {
          LeavingCR(State(), encoded, frames, Config());
          if afterCR {
            afterCR := false;
            frameEndedAtCR := false;
            endedFrameWireSize := 0;
          }
          frames, encoded, ok := AcceptSegment(encoded, frames);
        }
        if !ok {
          return;
        }
      }
      ok := true;
    }

    /** The end of the stream: pass-through releases what is held, strip drops it. */
    method Finish() returns (frames: seq<Frame>)
      requires Valid()
      modifies this
      ensures frames ==
              if frameDelimiter == Strip || old(frame) == [] then [] else [Frame(old(emittedOffset), old(frame))]
      ensures frame == [] && frameWireSize == 0 && delimiterStart == 0 && !afterCR && !frameEndedAtCR
      ensures emittedOffset == old(emittedOffset) + if frames == [] then 0 else |old(frame)|
    {
      afterCR := false;
      frameEndedAtCR := false;
      endedFrameWireSize := 0;
      if |frame| == 0 || frameDelimiter == Strip {
        frameWireSize := 0;
        frame := [];
        delimiterStart := 0;
        return [];
      }
      var taken := TakeFrame(|frame|);
      frames := [taken];
    }
  }
}

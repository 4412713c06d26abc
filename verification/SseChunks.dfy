/** What a stream delivers does not depend on how it was cut into chunks. */
module SseChunks {
  import opened Bytes
  import opened SseFramer

  function Prefixed(first: seq<Frame>, o: Outcome): Outcome {
    match o
    case More(m, frames) => More(m, first + frames)
    case TooLarge(frames) => TooLarge(first + frames)
  }

  /** One call of `Append` per chunk; the frames of all calls in order. */
  function Deliver(m: Machine, chunks: seq<Octets>, settings: Settings): (o: Outcome)
    requires Coherent(m, settings)
    ensures o.More? ==> Coherent(o.machine, settings)
    decreases |chunks|
  {
    if chunks == [] then
      More(m, [])
    else
      match Feed(m, chunks[0], [], settings)
      case TooLarge(frames) => TooLarge(frames)
      case More(next, frames) => Prefixed(frames, Deliver(next, chunks[1..], settings))
  }

  lemma {:induction false} StripAccumulates(m: Machine, bytes: Octets, frames: seq<Frame>, settings: Settings)
    requires Coherent(m, settings) && settings.delimiter == Strip
    ensures Feed(m, bytes, frames, settings) == Prefixed(frames, Feed(m, bytes, [], settings))
    decreases |bytes|
  {
    if bytes == [] {
      assert frames + [] == frames;
    } else {
      StepCoherent(m, bytes[0], frames, settings);
      StepCoherent(m, bytes[0], [], settings);
      var o, o' := Step(m, bytes[0], frames, settings), Step(m, bytes[0], [], settings);
      assert frames + [] == frames;
      assert o == Prefixed(frames, o');
      if o.More? {
        StripAccumulates(o.machine, bytes[1..], o.frames, settings);
        StripAccumulates(o.machine, bytes[1..], o'.frames, settings);
        var tail := Feed(o.machine, bytes[1..], [], settings).frames;
        assert frames + o'.frames + tail == frames + (o'.frames + tail);
      }
    }
  }

  /** Strip mode: the frames, their offsets and the size error are those of one whole chunk. */
  lemma {:induction false} StripChunking(m: Machine, chunks: seq<Octets>, settings: Settings)
    requires Coherent(m, settings) && settings.delimiter == Strip
    ensures Deliver(m, chunks, settings) == Feed(m, Concat(chunks), [], settings)
    decreases |chunks|
  {
    if chunks != [] {
      FeedSplit(m, chunks[0], Concat(chunks[1..]), [], settings);
      var o := Feed(m, chunks[0], [], settings);
      if o.More? {
        StripChunking(o.machine, chunks[1..], settings);
        StripAccumulates(o.machine, Concat(chunks[1..]), o.frames, settings);
      }
    }
  }

  function Payload(frames: seq<Frame>): Octets {
    if frames == [] then [] else Payload(frames[..|frames| - 1]) + frames[|frames| - 1].data
  }

  /** Each frame's offset is the number of bytes emitted before it. */
  ghost predicate Contiguous(frames: seq<Frame>, start: nat) {
    frames == [] ||
    var front := frames[..|frames| - 1];
    Contiguous(front, start) && frames[|frames| - 1].offset == start + |Payload(front)|
  }

  lemma {:induction false} PayloadSplit(a: seq<Frame>, b: seq<Frame>)
    ensures Payload(a + b) == Payload(a) + Payload(b)
  {
    if b == [] {
      assert a + b == a;
    } else {
      assert (a + b)[..|a + b| - 1] == a + b[..|b| - 1];
      PayloadSplit(a, b[..|b| - 1]);
    }
  }

  lemma {:induction false} ContiguousJoin(a: seq<Frame>, b: seq<Frame>, start: nat)
    requires Contiguous(a, start) && Contiguous(b, start + |Payload(a)|)
    ensures Contiguous(a + b, start)
  {
    if b == [] {
      assert a + b == a;
    } else {
      var front := b[..|b| - 1];
      assert (a + b)[..|a + b| - 1] == a + front;
      ContiguousJoin(a, front, start);
      PayloadSplit(a, front);
    }
  }

  lemma Pushed(frames: seq<Frame>, start: nat, last: Frame)
    requires Contiguous(frames, start) && last.offset == start + |Payload(frames)|
    ensures Contiguous(frames + [last], start)
    ensures Payload(frames + [last]) == Payload(frames) + last.data
  {
    assert (frames + [last])[..|frames|] == frames;
  }

  /** The frames emitted since `start` and the bytes still held account for the input. */
  ghost predicate Accounts(m: Machine, frames: seq<Frame>, start: nat, input: Octets, settings: Settings) {
    && Contiguous(frames, start)
    && m.emitted == start + |Payload(frames)|
    && Payload(frames) + m.frame == input
    && (forall i :: 0 <= i < |frames| ==> |frames[i].data| <= settings.maximum)
  }

  /** Within one chunk, the last frame may still take the LF of its CRLF. */
  ghost predicate Conserves(m: Machine, frames: seq<Frame>, start: nat, input: Octets, settings: Settings) {
    && Accounts(m, frames, start, input, settings)
    && (m.endedAtCR && frames != [] ==> |frames[|frames| - 1].data| <= m.endedWire)
  }

  lemma TrailingLFConserves(m: Machine, frames: seq<Frame>, start: nat, input: Octets, settings: Settings)
    requires Coherent(m, settings) && settings.delimiter == PassThrough && m.endedAtCR
    requires Conserves(m, frames, start, input, settings)
    ensures var o := TrailingLF(m, frames, settings);
            o.More? ==> Conserves(o.machine, o.frames, start, input + [LF], settings)
  {
    var o := TrailingLF(m, frames, settings);
    if o.More? {
      if frames != [] {
        var front, last := frames[..|frames| - 1], frames[|frames| - 1];
        Pushed(front, start, last.(data := last.data + [LF]));
        assert Payload(o.frames) == Payload(frames) + [LF];
      } else {
        Pushed([], start, Frame(m.emitted, [LF]));
        assert o.frames == [] + [Frame(m.emitted, [LF])];
      }
    }
  }

  /** A byte more is held, and all that is held may become a frame. */
  lemma HeldGrows(frames: seq<Frame>, start: nat, held: Octets, b: byte, input: Octets, offset: nat)
    requires Contiguous(frames, start) && offset == start + |Payload(frames)| && Payload(frames) + held == input
    ensures Payload(frames) + (held + [b]) == input + [b]
    ensures Contiguous(frames + [Frame(offset, held + [b])], start)
    ensures Payload(frames + [Frame(offset, held + [b])]) + [] == input + [b]
  {
    Pushed(frames, start, Frame(offset, held + [b]));
  }

  lemma StepConserves(m: Machine, b: byte, frames: seq<Frame>, start: nat, input: Octets, settings: Settings)
    requires Coherent(m, settings) && settings.delimiter == PassThrough
    requires Conserves(m, frames, start, input, settings)
    ensures var o := Step(m, b, frames, settings);
            o.More? ==> Conserves(o.machine, o.frames, start, input + [b], settings)
  {
    if m.afterCR && b == LF && m.endedAtCR {
      TrailingLFConserves(m, frames, start, input, settings);
    } else {
      hide Payload;
      hide Contiguous;
      HeldGrows(frames, start, m.frame, b, input, m.emitted);
      Pushed(frames, start, Frame(m.emitted, m.frame + [b]));
    }
  }

  lemma {:induction false} FeedConserves(m: Machine, bytes: Octets, frames: seq<Frame>, start: nat, input: Octets,
      settings: Settings)
    requires Coherent(m, settings) && settings.delimiter == PassThrough
    requires Conserves(m, frames, start, input, settings)
    ensures var o := Feed(m, bytes, frames, settings);
            o.More? ==> Conserves(o.machine, o.frames, start, input + bytes, settings)
    decreases |bytes|
  {
    if bytes == [] {
      assert input + bytes == input;
    } else {
      StepCoherent(m, bytes[0], frames, settings);
      StepConserves(m, bytes[0], frames, start, input, settings);
      var o := Step(m, bytes[0], frames, settings);
      if o.More? {
        FeedConserves(o.machine, bytes[1..], o.frames, start, input + [bytes[0]], settings);
        assert input + [bytes[0]] + bytes[1..] == input + bytes;
      }
    }
  }

  /** The state reached does not depend on the frames already emitted from the chunk. */
  lemma {:induction false} FeedMachine(m: Machine, bytes: Octets, a: seq<Frame>, b: seq<Frame>, settings: Settings)
    requires Coherent(m, settings)
    ensures var x, y := Feed(m, bytes, a, settings), Feed(m, bytes, b, settings);
            x.More? == y.More? && (x.More? ==> x.machine == y.machine)
    decreases |bytes|
  {
    if bytes != [] {
      StepCoherent(m, bytes[0], a, settings);
      var x, y := Step(m, bytes[0], a, settings), Step(m, bytes[0], b, settings);
      if x.More? {
        FeedMachine(x.machine, bytes[1..], x.frames, y.frames, settings);
      }
    }
  }

  /** In both modes the final state and the presence of the size error are chunk-independent. */
  lemma {:induction false} ChunkedMachine(m: Machine, chunks: seq<Octets>, settings: Settings)
    requires Coherent(m, settings)
    ensures var x, y := Deliver(m, chunks, settings), Feed(m, Concat(chunks), [], settings);
            x.More? == y.More? && (x.More? ==> x.machine == y.machine)
    decreases |chunks|
  {
    if chunks != [] {
      FeedSplit(m, chunks[0], Concat(chunks[1..]), [], settings);
      var o := Feed(m, chunks[0], [], settings);
      if o.More? {
        ChunkedMachine(o.machine, chunks[1..], settings);
        FeedMachine(o.machine, Concat(chunks[1..]), [], o.frames, settings);
      }
    }
  }

  lemma AccountsJoin(m: Machine, mid: Machine, end: Machine, a: seq<Frame>, b: seq<Frame>, x: Octets, y: Octets,
      settings: Settings)
    requires Accounts(mid, a, m.emitted, x, settings)
    requires Accounts(end, b, mid.emitted, mid.frame + y, settings)
    ensures Accounts(end, a + b, m.emitted, x + y, settings)
  {
    ContiguousJoin(a, b, m.emitted);
    PayloadSplit(a, b);
    assert Payload(a) + Payload(b) + end.frame == Payload(a) + (Payload(b) + end.frame);
    assert Payload(a) + (mid.frame + y) == x + y;
  }

  lemma {:induction false} DeliverConserves(m: Machine, chunks: seq<Octets>, settings: Settings)
    requires Coherent(m, settings) && settings.delimiter == PassThrough
    ensures var o := Deliver(m, chunks, settings);
            o.More? ==> Accounts(o.machine, o.frames, m.emitted, m.frame + Concat(chunks), settings)
    decreases |chunks|
  {
    assert Payload([]) + m.frame == m.frame;
    if chunks == [] {
      assert m.frame + Concat(chunks) == m.frame;
      return;
    }
    var first, later := chunks[0], Concat(chunks[1..]);
    assert m.frame + first + later == m.frame + Concat(chunks);
    var o := Feed(m, first, [], settings);
    FeedConserves(m, first, [], m.emitted, m.frame, settings);
    if o.More? {
      var rest := Deliver(o.machine, chunks[1..], settings);
      DeliverConserves(o.machine, chunks[1..], settings);
      if rest.More? {
        AccountsJoin(m, o.machine, rest.machine, o.frames, rest.frames, m.frame + first, later, settings);
      }
    }
  }

  predicate EndsCR(data: Octets) {
    data != [] && data[|data| - 1] == CR
  }

  /** An LF that comes out alone after a frame's last CR still counts to that frame's size. */
  ghost predicate EndingsFit(frames: seq<Frame>, maximum: nat) {
    |frames| < 2 ||
    (&& EndingsFit(frames[..|frames| - 1], maximum)
     && PairFits(frames[|frames| - 2].data, frames[|frames| - 1].data, maximum))
  }

  predicate PairFits(first: Octets, second: Octets, maximum: nat) {
    second == [LF] && EndsCR(first) ==> |first| + 1 <= maximum
  }

  /** What follows a frame's last CR, as far as it is known: its LF may still come, or another byte has. */
  predicate Follows(m: Machine, last: Octets) {
    EndsCR(last) ==> if m.frame == [] then m.endedAtCR && |last| <= m.endedWire else m.frame[0] != LF
  }

  ghost predicate EndingOpen(m: Machine, frames: seq<Frame>, settings: Settings) {
    EndingsFit(frames, settings.maximum)
      && (frames != [] ==> frames[|frames| - 1].data != [] && Follows(m, frames[|frames| - 1].data))
  }

  lemma FitsMore(frames: seq<Frame>, f: Frame, maximum: nat)
    requires EndingsFit(frames, maximum) && (frames != [] ==> PairFits(frames[|frames| - 1].data, f.data, maximum))
    ensures EndingsFit(frames + [f], maximum)
  {
    assert (frames + [f])[..|frames|] == frames;
  }

  lemma FitsFront(frames: seq<Frame>, maximum: nat)
    requires EndingsFit(frames, maximum) && frames != []
    ensures EndingsFit(frames[..|frames| - 1], maximum)
  {
  }

  lemma TrailingFits(m: Machine, before: seq<Frame>, frames: seq<Frame>, settings: Settings)
    requires Coherent(m, settings) && settings.delimiter == PassThrough && m.endedAtCR
    requires EndingOpen(m, before + frames, settings)
    ensures var o := TrailingLF(m, frames, settings);
            o.More? ==> EndingOpen(o.machine, before + o.frames, settings)
  {
    hide EndingsFit;
    hide Follows;
    var all, o := before + frames, TrailingLF(m, frames, settings);
    if o.More? {
      if frames == [] {
        assert all == before;
        TrailingPair(m, before, settings);
        FitsMore(before, Frame(m.emitted, [LF]), settings.maximum);
        assert before + o.frames == before + [Frame(m.emitted, [LF])];
        assert Follows(o.machine, [LF]) by { NoCR(o.machine, []); }
      } else {
        var front, last := all[..|all| - 1], frames[|frames| - 1];
        var joined := last.(data := last.data + [LF]);
        assert all[|all| - 1] == last && before + o.frames == front + [joined];
        FitsFront(all, settings.maximum);
        Longer(last.data);
        FitsMore(front, joined, settings.maximum);
        NoCR(o.machine, last.data);
      }
    }
  }

  lemma TrailingPair(m: Machine, before: seq<Frame>, settings: Settings)
    requires Coherent(m, settings) && m.endedAtCR && m.endedWire < settings.maximum && EndingOpen(m, before, settings)
    ensures before != [] ==> PairFits(before[|before| - 1].data, [LF], settings.maximum)
  {
  }

  lemma NoCR(m: Machine, data: Octets)
    ensures Follows(m, data + [LF]) && Follows(m, [LF]) && data + [LF] != []
  {
    assert (data + [LF])[|data|] == LF;
  }

  lemma Longer(data: Octets)
    ensures data != [] ==> data + [LF] != [LF]
  {
    assert |data + [LF]| == |data| + 1;
  }

  /** A byte that ends no frame. */
  lemma GrowFollows(m: Machine, b: byte, last: Octets, next: Machine, settings: Settings)
    requires Coherent(m, settings) && Follows(m, last)
    requires !(m.afterCR && b == LF && m.endedAtCR) && next.frame == m.frame + [b]
    ensures Follows(next, last)
  {
  }

  /** A byte that ends a frame. */
  lemma EmitFits(m: Machine, b: byte, all: seq<Frame>, next: Machine, settings: Settings)
    requires Coherent(m, settings) && EndingOpen(m, all, settings) && !(m.afterCR && b == LF && m.endedAtCR)
    requires next.frame == [] && (b == CR ==> next.endedAtCR && next.endedWire == |m.frame| + 1)
    ensures EndingOpen(next, all + [Frame(m.emitted, m.frame + [b])], settings)
  {
    hide EndingsFit;
    OnlyLF(m.frame, b);
    FitsMore(all, Frame(m.emitted, m.frame + [b]), settings.maximum);
  }

  lemma OnlyLF(frame: Octets, b: byte)
    ensures frame + [b] == [LF] ==> frame == [] && b == LF
  {
    assert (frame + [b])[|frame|] == b;
  }

  lemma StepFits(m: Machine, b: byte, before: seq<Frame>, frames: seq<Frame>, settings: Settings)
    requires Coherent(m, settings) && settings.delimiter == PassThrough
    requires EndingOpen(m, before + frames, settings)
    ensures var o := Step(m, b, frames, settings);
            o.More? ==> EndingOpen(o.machine, before + o.frames, settings)
  {
    if m.afterCR && b == LF && m.endedAtCR {
      TrailingFits(m, before, frames, settings);
    } else {
      hide EndingsFit;
      hide Follows;
      var o, all := Step(m, b, frames, settings), before + frames;
      if o.More? {
        if o.frames == frames {
          if all != [] {
            GrowFollows(m, b, all[|all| - 1].data, o.machine, settings);
          }
        } else {
          assert before + o.frames == all + [Frame(m.emitted, m.frame + [b])];
          EmitFits(m, b, all, o.machine, settings);
        }
      }
    }
  }

  lemma {:induction false} FeedFits(m: Machine, bytes: Octets, before: seq<Frame>, frames: seq<Frame>,
      settings: Settings)
    requires Coherent(m, settings) && settings.delimiter == PassThrough
    requires EndingOpen(m, before + frames, settings)
    ensures var o := Feed(m, bytes, frames, settings);
            o.More? ==> EndingOpen(o.machine, before + o.frames, settings)
    decreases |bytes|
  {
    hide EndingOpen;
    if bytes != [] {
      StepCoherent(m, bytes[0], frames, settings);
      StepFits(m, bytes[0], before, frames, settings);
      var o := Step(m, bytes[0], frames, settings);
      if o.More? {
        FeedFits(o.machine, bytes[1..], before, o.frames, settings);
      }
    }
  }

  lemma {:induction false} DeliverFits(m: Machine, chunks: seq<Octets>, before: seq<Frame>, settings: Settings)
    requires Coherent(m, settings) && settings.delimiter == PassThrough
    requires EndingOpen(m, before, settings)
    ensures var o := Deliver(m, chunks, settings);
            o.More? ==> EndingOpen(o.machine, before + o.frames, settings)
    decreases |chunks|
  {
    hide EndingOpen;
    hide Step;
    assert before + [] == before;
    if chunks != [] {
      FeedFits(m, chunks[0], before, [], settings);
      var o := Feed(m, chunks[0], [], settings);
      if o.More? {
        DeliverFits(o.machine, chunks[1..], before + o.frames, settings);
        var rest := Deliver(o.machine, chunks[1..], settings);
        assert before + o.frames + rest.frames == before + (o.frames + rest.frames);
      }
    }
  }

  /** What `Finish` releases from a final state. */
  function Released(m: Machine, settings: Settings): seq<Frame> {
    if settings.delimiter == Strip || m.frame == [] then [] else [Frame(m.emitted, m.frame)]
  }

  /** Pass-through gives back the stream: nothing lost, reordered or renumbered, nothing oversized. */
  lemma PassThroughConservation(chunks: seq<Octets>, settings: Settings)
    requires settings.delimiter == PassThrough
    ensures var o := Deliver(INITIAL, chunks, settings);
            o.More? ==>
              var all := o.frames + Released(o.machine, settings);
              && Payload(all) == Concat(chunks)
              && Contiguous(all, 0)
              && forall i :: 0 <= i < |all| ==> |all[i].data| <= settings.maximum
  {
    var o := Deliver(INITIAL, chunks, settings);
    if o.More? {
      DeliverConserves(INITIAL, chunks, settings);
      if o.machine.frame != [] {
        Pushed(o.frames, 0, Frame(o.machine.emitted, o.machine.frame));
      } else {
        assert o.frames + [] == o.frames;
        assert Payload(o.frames) + [] == Payload(o.frames);
      }
    }
  }

  lemma NothingOpen(settings: Settings)
    ensures EndingOpen(INITIAL, [], settings)
  {
  }

  /** An LF that reaches its CR late, as a frame of its own, still fits the size of the frame it ends. */
  lemma LateEndingsFit(chunks: seq<Octets>, settings: Settings)
    requires settings.delimiter == PassThrough
    ensures var o := Deliver(INITIAL, chunks, settings);
            o.More? ==> EndingsFit(o.frames + Released(o.machine, settings), settings.maximum)
  {
    hide EndingsFit;
    hide Deliver;
    NothingOpen(settings);
    DeliverFits(INITIAL, chunks, [], settings);
    var o := Deliver(INITIAL, chunks, settings);
    if o.More? {
      assert [] + o.frames == o.frames && o.frames + [] == o.frames;
      if o.machine.frame != [] {
        FitsMore(o.frames, Frame(o.machine.emitted, o.machine.frame), settings.maximum);
      }
    }
  }
}

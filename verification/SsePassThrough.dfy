/** Pass-through mode emits the blocks of the grammar with all their bytes; only the LF of a CRLF that a chunk boundary
    cuts in two may come out as a frame of its own. */
module SsePassThrough {
  import opened Bytes
  import opened SseFramer
  import opened SseChunks
  import opened SseGrammar

  /** A block with its delimiters. */
  function WireOf(block: Block): Octets {
    Render(block.lines) + block.blank.ending
  }

  function WholeFrames(blocks: seq<Block>, offset: nat): seq<Frame> {
    if blocks == [] then []
    else [Frame(offset, WireOf(blocks[0]))] + WholeFrames(blocks[1..], offset + |WireOf(blocks[0])|)
  }

  /** Frames with each LF that came out alone put back behind its CR. */
  function Coalesced(frames: seq<Frame>): seq<Frame> {
    if frames == [] then []
    else
      var front, last := Coalesced(frames[..|frames| - 1]), frames[|frames| - 1];
      if last.data == [LF] && front != [] && EndsCR(front[|front| - 1].data) then
        front[..|front| - 1] + [front[|front| - 1].(data := front[|front| - 1].data + [LF])]
      else front + [last]
  }

  lemma CoalescedMore(frames: seq<Frame>, last: Frame)
    ensures var front := Coalesced(frames);
            Coalesced(frames + [last]) ==
            if last.data == [LF] && front != [] && EndsCR(front[|front| - 1].data) then
              front[..|front| - 1] + [front[|front| - 1].(data := front[|front| - 1].data + [LF])]
            else front + [last]
  {
    assert (frames + [last])[..|frames|] == frames;
  }

  // The two modes stop at the same byte.

  /** What both modes know between two bytes. */
  predicate SameControl(a: Machine, b: Machine) {
    a == b.(emitted := a.emitted)
  }

  lemma {:induction false} ModesAgree(a: Machine, b: Machine, bytes: Octets, x: seq<Frame>, y: seq<Frame>, maximum: nat)
    requires Coherent(a, Settings(maximum, Strip)) && Coherent(b, Settings(maximum, PassThrough)) && SameControl(a, b)
    ensures var o, p := Feed(a, bytes, x, Settings(maximum, Strip)), Feed(b, bytes, y, Settings(maximum, PassThrough));
            o.More? == p.More? && (o.More? ==> SameControl(o.machine, p.machine))
    decreases |bytes|
  {
    if bytes != [] {
      StepCoherent(a, bytes[0], x, Settings(maximum, Strip));
      StepCoherent(b, bytes[0], y, Settings(maximum, PassThrough));
      var o := Step(a, bytes[0], x, Settings(maximum, Strip));
      var p := Step(b, bytes[0], y, Settings(maximum, PassThrough));
      if o.More? {
        ModesAgree(o.machine, p.machine, bytes[1..], o.frames, p.frames, maximum);
      }
    }
  }

  // One chunk.

  /** What was emitted from a chunk before is left alone, but for the frame whose CR came last. */
  lemma {:induction false} PassAccumulates(m: Machine, bytes: Octets, frames: seq<Frame>, more: seq<Frame>,
      settings: Settings)
    requires Coherent(m, settings) && settings.delimiter == PassThrough
    requires m.endedAtCR && bytes != [] && bytes[0] == LF ==> more != []
    ensures Feed(m, bytes, frames + more, settings) == Prefixed(frames, Feed(m, bytes, more, settings))
    decreases |bytes|
  {
    if bytes != [] {
      StepCoherent(m, bytes[0], frames + more, settings);
      StepCoherent(m, bytes[0], more, settings);
      StepAccumulates(m, bytes[0], frames, more, settings);
      var o := Step(m, bytes[0], more, settings);
      if o.More? {
        PassAccumulates(o.machine, bytes[1..], frames, o.frames, settings);
      }
    }
  }

  lemma StepAccumulates(m: Machine, b: byte, frames: seq<Frame>, more: seq<Frame>, settings: Settings)
    requires Coherent(m, settings) && settings.delimiter == PassThrough && (m.endedAtCR && b == LF ==> more != [])
    ensures var o := Step(m, b, more, settings);
            && Step(m, b, frames + more, settings) == Prefixed(frames, o)
            && (o.More? && o.machine.endedAtCR ==> o.frames != [])
  {
    var all := frames + more;
    forall f: Frame
      ensures all + [f] == frames + (more + [f])
    {
    }
    if more != [] {
      assert all[|all| - 1] == more[|more| - 1];
      assert all[..|all| - 1] == frames + more[..|more| - 1];
      forall f: Frame
        ensures all[..|all| - 1] + [f] == frames + (more[..|more| - 1] + [f])
      {
      }
    }
  }

  lemma PassBlankLine(m: Machine, s: Octets, open: seq<Line>, ending: Octets, offset: nat, settings: Settings)
    requires settings.delimiter == PassThrough && IsEnding(ending, s)
    requires AtLineStart(m, ending, open, offset, settings)
    ensures var o := Feed(m, ending, [], settings);
            o.More? ==>
              && o.frames == [Frame(offset, Render(open) + ending)]
              && AtLineStart(o.machine, s, [], offset + |Render(open) + ending|, settings)
  {
    hide Feed;
    hide Render;
    hide Body;
    FeedEnding(m, ending, s, settings);
    NothingRendered();
    if |ending| == 2 {
      assert m.frame + [CR] + [LF] == m.frame + ending;
    } else {
      assert ending == [ending[0]];
    }
  }

  lemma NothingRendered()
    ensures Render([]) == [] && Body([]) == []
  {
  }

  lemma PassDataLine(m: Machine, s: Octets, open: seq<Line>, line: Line, offset: nat, settings: Settings)
    requires settings.delimiter == PassThrough && Coherent(m, settings) && IsEnding(line.ending, s)
    requires !m.afterCR && m.lineHasData && m.emitted == offset && line.content != []
    requires m.frame == Render(open) + line.content
    ensures var o := Feed(m, line.ending, [], settings);
            o.More? ==> o.frames == [] && AtLineStart(o.machine, s, open + [line], offset, settings)
  {
    FeedEnding(m, line.ending, s, settings);
    assert (open + [line])[..|open|] == open;
    BodyIsPrefix(open + [line]);
    assert m.frame + [CR] + [LF] == m.frame + [CR, LF];
  }

  lemma PassContentLine(m: Machine, rest: Octets, open: seq<Line>, line: Line, offset: nat, settings: Settings)
    requires settings.delimiter == PassThrough && Coherent(m, settings)
    requires m.frame == Render(open) && m.emitted == offset
    requires line.content != [] && Plain(line.content) && IsEnding(line.ending, rest)
    ensures var o := Feed(m, line.content + line.ending, [], settings);
            o.More? ==> o.frames == [] && AtLineStart(o.machine, rest, open + [line], offset, settings)
  {
    hide Render;
    hide Body;
    hide AtLineStart;
    hide IsEnding;
    hide Step;
    hide Feed;
    var left := LeaveCR(m);
    LeavingCR(m, line.content + line.ending, [], settings);
    FeedSplit(left, line.content, line.ending, [], settings);
    FeedPlain(left, line.content, [], settings);
    if m.wire + |line.content| <= settings.maximum {
      PassDataLine(Feed(left, line.content, [], settings).machine, rest, open, line, offset, settings);
    }
  }

  lemma PassFirstLine(m: Machine, s: Octets, open: seq<Line>, offset: nat, settings: Settings)
    requires settings.delimiter == PassThrough && AtLineStart(m, s, open, offset, settings) && NextEnding(s) < |s|
    ensures var line := FirstLine(s);
            var o := Feed(m, line.content + line.ending, [], settings);
            o.More? ==>
              if line.content != [] then
                o.frames == [] && AtLineStart(o.machine, AfterFirst(s), open + [line], offset, settings)
              else
                && o.frames == [Frame(offset, Render(open) + line.ending)]
                && AtLineStart(o.machine, AfterFirst(s), [], offset + |Render(open) + line.ending|, settings)
  {
    hide Render;
    hide Body;
    hide Step;
    hide Feed;
    var line, rest := FirstLine(s), AfterFirst(s);
    assert IsEnding(line.ending, rest);
    if line.content == [] {
      assert line.content + line.ending == line.ending;
      assert line.ending[0] == s[0];
      PassBlankLine(m, rest, open, line.ending, offset, settings);
    } else {
      PassContentLine(m, rest, open, line, offset, settings);
    }
  }

  lemma PassAfter(m: Machine, first: Octets, rest: Octets, settings: Settings)
    requires settings.delimiter == PassThrough && Coherent(m, settings)
    requires var o := Feed(m, first, [], settings); o.More? && rest != [] && rest[0] == LF ==> !o.machine.afterCR
    ensures var o := Feed(m, first, [], settings);
            Feed(m, first + rest, [], settings) ==
            if o.TooLarge? then o else Prefixed(o.frames, Feed(o.machine, rest, [], settings))
  {
    FeedSplit(m, first, rest, [], settings);
    var o := Feed(m, first, [], settings);
    if o.More? {
      assert o.frames + [] == o.frames;
      PassAccumulates(o.machine, rest, o.frames, [], settings);
    }
  }

  lemma PassUnfinished(m: Machine, s: Octets, open: seq<Line>, offset: nat, settings: Settings)
    requires settings.delimiter == PassThrough && AtLineStart(m, s, open, offset, settings) && NextEnding(s) == |s|
    ensures var o := Feed(m, s, [], settings); o.More? ==> o.frames == [] && o.machine.frame == Render(open) + s
  {
    if s != [] {
      assert s[..|s|] == s;
      LeavingCR(m, s, [], settings);
      FeedPlain(LeaveCR(m), s, [], settings);
    } else {
      assert Render(open) + s == Render(open);
    }
  }

  lemma WholeUnfold(block: Block, blocks: seq<Block>, offset: nat)
    ensures WholeFrames([block] + blocks, offset) ==
            [Frame(offset, WireOf(block))] + WholeFrames(blocks, offset + |WireOf(block)|)
  {
    assert ([block] + blocks)[1..] == blocks;
  }

  /** One chunk, from any line start. */
  lemma {:induction false} PassFollowsGrammar(m: Machine, s: Octets, open: seq<Line>, offset: nat, settings: Settings)
    requires settings.delimiter == PassThrough && AtLineStart(m, s, open, offset, settings)
    ensures var o := Feed(m, s, [], settings);
            o.More? ==>
              && o.frames == WholeFrames(Blocks(Lines(s), open), offset)
              && o.machine.frame == Render(Open(Lines(s), open)) + Unfinished(s)
    decreases |s|
  {
    hide FirstLine;
    hide AfterFirst;
    hide NextEnding;
    hide Feed;
    hide Render;
    hide Body;
    hide Blocks;
    hide Open;
    hide WholeFrames;
    if NextEnding(s) == |s| {
      PassUnfinished(m, s, open, offset, settings);
      NoLines(s, open, offset);
    } else {
      hide Lines;
      hide Unfinished;
      LinesUnfold(s);
      var line, rest := FirstLine(s), AfterFirst(s);
      var o := Feed(m, line.content + line.ending, [], settings);
      PassFirstLine(m, s, open, offset, settings);
      PassAfter(m, line.content + line.ending, rest, settings);
      var lines, later := Lines(s), Lines(rest);
      assert lines[0] == line && lines[1..] == later;
      BlocksUnfold(lines, open);
      if o.More? {
        if line.content != [] {
          PassFollowsGrammar(o.machine, rest, open + [line], offset, settings);
        } else {
          PassFollowsGrammar(o.machine, rest, [], offset + |Render(open) + line.ending|, settings);
          WholeUnfold(Block(open, line), Blocks(later, []), offset);
        }
      }
    }
  }

  lemma NoLines(s: Octets, open: seq<Line>, offset: nat)
    requires NextEnding(s) == |s|
    ensures Lines(s) == [] && Unfinished(s) == s
    ensures Blocks([], open) == [] && Open([], open) == open && WholeFrames([], offset) == []
  {
  }

  // Any chunks.

  /** The frames so far, and what they come to, end in the same byte. */
  lemma CoalescedEnd(frames: seq<Frame>)
    requires frames != [] && frames[|frames| - 1].data != []
    ensures var all := Coalesced(frames);
            && all != [] && all[|all| - 1].data != []
            && EndsCR(all[|all| - 1].data) == EndsCR(frames[|frames| - 1].data)
  {
    var front, last := Coalesced(frames[..|frames| - 1]), frames[|frames| - 1];
    if last.data == [LF] && front != [] {
      assert (front[|front| - 1].data + [LF])[|front[|front| - 1].data|] == LF;
    }
  }

  /** What holds between two bytes of a delivery: a frame that ended in a CR may still get its LF. */
  ghost predicate Between(m: Machine, all: seq<Frame>, settings: Settings) {
    EndingOpen(m, all, settings) && (m.endedAtCR ==> all != [] && EndsCR(all[|all| - 1].data))
  }

  /** The LF of a frame's last CR, in the same chunk or in a later one. */
  lemma TrailingCoalesces(m: Machine, before: seq<Frame>, frames: seq<Frame>, settings: Settings)
    requires Coherent(m, settings) && settings.delimiter == PassThrough && m.endedAtCR
    requires Between(m, before + frames, settings)
    ensures var o := TrailingLF(m, frames, settings);
            var whole := TrailingLF(m, Coalesced(before + frames), settings);
            && o.More? == whole.More?
            && (o.More? ==>
                  && o.machine == whole.machine && !o.machine.endedAtCR
                  && whole.frames == Coalesced(before + o.frames))
  {
    hide EndingsFit;
    hide Follows;
    hide Coalesced;
    var all, o := before + frames, TrailingLF(m, frames, settings);
    CoalescedEnd(all);
    if o.More? {
      if frames == [] {
        assert all == before && before + o.frames == before + [Frame(m.emitted, [LF])];
        CoalescedMore(before, Frame(m.emitted, [LF]));
      } else {
        var front, last := all[..|all| - 1], frames[|frames| - 1];
        assert before + o.frames == front + [last.(data := last.data + [LF])];
        assert all == front + [last];
        Longer(last.data);
        CRIsNotLF(last.data);
        CoalescedMore(front, last);
        CoalescedMore(front, last.(data := last.data + [LF]));
      }
    }
  }

  /** A byte that ends a frame is no LF of the frame before. */
  lemma EmitCoalesces(m: Machine, b: byte, all: seq<Frame>, settings: Settings)
    requires Coherent(m, settings) && Between(m, all, settings) && !(m.afterCR && b == LF && m.endedAtCR)
    ensures Coalesced(all + [Frame(m.emitted, m.frame + [b])]) ==
            Coalesced(all) + [Frame(m.emitted, m.frame + [b])]
  {
    hide EndingsFit;
    hide Coalesced;
    if all != [] {
      CoalescedEnd(all);
    } else {
      BetweenNothing(settings);
    }
    OnlyLF(m.frame, b);
    CoalescedMore(all, Frame(m.emitted, m.frame + [b]));
  }

  lemma StepCoalesces(m: Machine, b: byte, before: seq<Frame>, frames: seq<Frame>, settings: Settings)
    requires Coherent(m, settings) && settings.delimiter == PassThrough && Between(m, before + frames, settings)
    ensures var o, whole := Step(m, b, frames, settings), Step(m, b, Coalesced(before + frames), settings);
            && o.More? == whole.More?
            && (o.More? ==>
                  && o.machine == whole.machine && whole.frames == Coalesced(before + o.frames)
                  && Between(o.machine, before + o.frames, settings))
  {
    hide EndingOpen;
    hide Coalesced;
    hide TrailingLF;
    var all, o := before + frames, Step(m, b, frames, settings);
    StepFits(m, b, before, frames, settings);
    if m.afterCR && b == LF && m.endedAtCR {
      TrailingCoalesces(m, before, frames, settings);
    } else {
      assert before + (frames + [Frame(m.emitted, m.frame + [b])]) == all + [Frame(m.emitted, m.frame + [b])];
      EmitCoalesces(m, b, all, settings);
      EndsWithByte(m.frame, b);
    }
  }

  lemma CRIsNotLF(data: Octets)
    requires EndsCR(data)
    ensures data != [LF]
  {
  }

  lemma EndsWithByte(data: Octets, b: byte)
    ensures EndsCR(data + [b]) <==> b == CR
  {
  }

  lemma {:induction false} FeedCoalesces(m: Machine, bytes: Octets, before: seq<Frame>, frames: seq<Frame>,
      settings: Settings)
    requires Coherent(m, settings) && settings.delimiter == PassThrough && Between(m, before + frames, settings)
    ensures var o := Feed(m, bytes, frames, settings);
            var whole := Feed(m, bytes, Coalesced(before + frames), settings);
            && o.More? == whole.More?
            && (o.More? ==>
                  && o.machine == whole.machine && whole.frames == Coalesced(before + o.frames)
                  && Between(o.machine, before + o.frames, settings))
    decreases |bytes|
  {
    hide Between;
    hide Coalesced;
    if bytes != [] {
      StepCoherent(m, bytes[0], frames, settings);
      StepCoherent(m, bytes[0], Coalesced(before + frames), settings);
      StepCoalesces(m, bytes[0], before, frames, settings);
      var o := Step(m, bytes[0], frames, settings);
      hide Step;
      if o.More? {
        FeedCoalesces(o.machine, bytes[1..], before, o.frames, settings);
      }
    }
  }

  lemma {:induction false} DeliverCoalesces(m: Machine, chunks: seq<Octets>, before: seq<Frame>, settings: Settings)
    requires Coherent(m, settings) && settings.delimiter == PassThrough && Between(m, before, settings)
    ensures var o := Deliver(m, chunks, settings);
            var whole := Feed(m, Concat(chunks), Coalesced(before), settings);
            && o.More? == whole.More?
            && (o.More? ==> o.machine == whole.machine && whole.frames == Coalesced(before + o.frames))
    decreases |chunks|
  {
    hide Between;
    hide Coalesced;
    hide Step;
    assert before + [] == before;
    if chunks != [] {
      FeedSplit(m, chunks[0], Concat(chunks[1..]), Coalesced(before), settings);
      FeedCoalesces(m, chunks[0], before, [], settings);
      var o := Feed(m, chunks[0], [], settings);
      hide Feed;
      if o.More? {
        DeliverCoalesces(o.machine, chunks[1..], before + o.frames, settings);
        var rest := Deliver(o.machine, chunks[1..], settings);
        assert before + o.frames + rest.frames == before + (o.frames + rest.frames);
      }
    }
  }

  lemma BetweenNothing(settings: Settings)
    ensures Between(INITIAL, [], settings) && Coalesced([]) == []
  {
  }

  /** In any chunks: the size error comes exactly when strip mode's does, and without one the frames, each LF that came
      out alone put back, are the blocks of the grammar with all their bytes; the rest is held. */
  lemma PassThroughEmitsBlocks(chunks: seq<Octets>, maximum: nat)
    ensures var s := Concat(chunks);
            var o := Deliver(INITIAL, chunks, Settings(maximum, PassThrough));
            && o.TooLarge? == OfBlocks(Lines(s), Unfinished(s), maximum).tooLarge
            && (o.More? ==>
                  && Coalesced(o.frames) == WholeFrames(Blocks(Lines(s), []), 0)
                  && o.machine.frame == Render(Open(Lines(s), [])) + Unfinished(s))
  {
    var s, settings := Concat(chunks), Settings(maximum, PassThrough);
    BetweenNothing(settings);
    DeliverCoalesces(INITIAL, chunks, [], settings);
    var o := Deliver(INITIAL, chunks, settings);
    assert [] + o.frames == o.frames;
    hide Deliver;
    ModesAgree(INITIAL, INITIAL, s, [], [], maximum);
    WholeStream(Feed(INITIAL, s, [], Settings(maximum, Strip)), s, Lines(s), Settings(maximum, Strip));
    StartsLine(s, settings);
    PassFollowsGrammar(INITIAL, s, [], 0, settings);
  }

  lemma StartsLine(s: Octets, settings: Settings)
    ensures AtLineStart(INITIAL, s, [], 0, settings)
  {
  }
}

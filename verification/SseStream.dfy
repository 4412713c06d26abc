/** From a byte stream in chunks to the data of its events (WHATWG HTML Standard, section 9.2.6). */
module SseStream {
  import opened Bytes
  import opened Options
  import opened SseChunks
  import opened SseData
  import opened SseFramer
  import opened SseGrammar

  /** The bytes behind the last blank line. */
  function Rest(s: Octets): nat {
    |Render(Open(Lines(s), []))| + |Unfinished(s)|
  }

  /** In any chunks: the framer fails exactly when a block, or the bytes behind the last one, exceed the
      maximum; otherwise its frames are the blocks of the stream. */
  lemma StripDelivers(chunks: seq<Octets>, settings: Settings)
    requires settings.delimiter == Strip
    ensures var s, o := Concat(chunks), Deliver(INITIAL, chunks, settings);
            var blocks := Blocks(Lines(s), []);
            && (o.TooLarge? <==> (exists b :: b in blocks && Wire(b) > settings.maximum) || Rest(s) > settings.maximum)
            && (!o.TooLarge? ==> o.frames == FramesOf(blocks, 0))
  {
    hide Blocks;
    hide Lines;
    hide Open;
    hide Unfinished;
    hide Render;
    hide FramesOf;
    hide Reference;
    hide Deliver;
    hide Concat;
    hide Wire;
    hide LineShape;
    var s := Concat(chunks);
    StripEmitsBlocks(chunks, settings);
    LinesShape(s);
    BlocksShape(Lines(s), []);
    TooLargeIff(Blocks(Lines(s), []), Rest(s), 0, settings.maximum);
  }

  lemma {:induction false} FrameAt(blocks: seq<Block>, offset: nat, k: nat)
    requires k < |blocks|
    ensures |FramesOf(blocks, offset)| == |blocks| && FramesOf(blocks, offset)[k].data == Body(blocks[k].lines)
  {
    hide Body;
    var next := offset + |Body(blocks[0].lines)|;
    if k > 0 {
      FrameAt(blocks[1..], next, k - 1);
    } else if |blocks| > 1 {
      FrameAt(blocks[1..], next, 0);
    }
  }

  /** The data read off the k-th frame is what the k-th block dispatches, unless a mark hides a data field. */
  lemma KthFrame(chunks: seq<Octets>, settings: Settings, k: nat)
    requires settings.delimiter == Strip && !Deliver(INITIAL, chunks, settings).TooLarge?
    requires k < |Blocks(Lines(Concat(chunks)), [])|
    ensures var frames, blocks := Deliver(INITIAL, chunks, settings).frames, Blocks(Lines(Concat(chunks)), []);
            && |frames| == |blocks|
            && (EventData(frames[k].data) == Dispatched(Contents(blocks[k].lines)) <==> !HidesData(blocks[k].lines))
  {
    var s := Concat(chunks);
    StripDelivers(chunks, settings);
    FrameAt(Blocks(Lines(s), []), 0, k);
    BlocksHaveShape(s);
    FrameDataIff(Blocks(Lines(s), [])[k].lines);
  }

  function One(data: Option<Octets>): seq<Octets> {
    match data
    case None => []
    case Some(value) => [value]
  }

  /** The data of the events that have any, in order. */
  function EventsOf(blocks: seq<Block>): seq<Octets> {
    if blocks == [] then [] else One(Dispatched(Contents(blocks[0].lines))) + EventsOf(blocks[1..])
  }

  /** The same, as it is read off frames. */
  function EventsRead(frames: seq<Frame>): seq<Octets> {
    if frames == [] then [] else One(EventData(frames[0].data)) + EventsRead(frames[1..])
  }

  /** Decoding a stream as UTF-8 drops one byte order mark, at its start. */
  function StandardEvents(s: Octets): seq<Octets> {
    EventsOf(Blocks(Lines(TrimPrefix(s, BOM)), []))
  }

  /** The bytes of some data, with one line feed behind each. */
  function Weight(events: seq<Octets>): nat {
    if events == [] then 0 else |events[0]| + 1 + Weight(events[1..])
  }

  lemma {:induction false} WeightSplit(a: seq<Octets>, b: seq<Octets>)
    ensures Weight(a + b) == Weight(a) + Weight(b)
  {
    if a == [] {
      assert a + b == b;
    } else {
      assert (a + b)[1..] == a[1..] + b;
      WeightSplit(a[1..], b);
    }
  }

  lemma WeightOne(lines: seq<Octets>)
    ensures Weight(One(Dispatched(lines))) == |DataBuffer(lines)|
  {
    assert Weight([]) == 0;
  }

  predicate Hides(blocks: seq<Block>) {
    exists b :: b in blocks && HidesData(b.lines)
  }

  ghost predicate Shaped(blocks: seq<Block>) {
    forall b :: b in blocks ==> forall l :: l in b.lines ==> LineShape(l) && l.content != []
  }

  /** Frames read data exactly like blocks, unless some block hides some; then they read more. */
  lemma {:induction false} ReadsMore(blocks: seq<Block>, offset: nat)
    requires Shaped(blocks)
    ensures !Hides(blocks) ==> EventsRead(FramesOf(blocks, offset)) == EventsOf(blocks)
    ensures Weight(EventsRead(FramesOf(blocks, offset))) >= Weight(EventsOf(blocks))
    ensures Hides(blocks) ==> Weight(EventsRead(FramesOf(blocks, offset))) > Weight(EventsOf(blocks))
  {
    hide Contents;
    hide Unmarked;
    hide DataBuffer;
    hide Dispatched;
    hide EventData;
    hide HidesData;
    hide Body;
    hide LineShape;
    hide One;
    hide Weight;
    hide EventsRead;
    hide FramesOf;
    if blocks == [] {
      NoFrames(offset);
    } else {
      var lines, later, next := blocks[0].lines, blocks[1..], offset + |Body(blocks[0].lines)|;
      assert blocks[0] in blocks && forall b :: b in blocks <==> b == blocks[0] || b in later;
      ReadsMore(later, next);
      FrameData(lines);
      FrameDataIff(lines);
      UnmarkedBuffer(lines);
      FramesUnfold(blocks, offset);
      WeightOne(Contents(lines));
      WeightOne(Unmarked(Contents(lines)));
      WeightSplit(One(Dispatched(Contents(lines))), EventsOf(later));
      WeightSplit(One(EventData(Body(lines))), EventsRead(FramesOf(later, next)));
    }
  }

  lemma NoFrames(offset: nat)
    ensures EventsRead(FramesOf([], offset)) == []
  {
    assert FramesOf([], offset) == [];
  }

  lemma FramesUnfold(blocks: seq<Block>, offset: nat)
    requires blocks != []
    ensures var next := offset + |Body(blocks[0].lines)|;
            EventsRead(FramesOf(blocks, offset)) ==
            One(EventData(Body(blocks[0].lines))) + EventsRead(FramesOf(blocks[1..], next))
  {
    var frames := FramesOf(blocks, offset);
    assert frames[1..] == FramesOf(blocks[1..], offset + |Body(blocks[0].lines)|);
  }

  /** One line more in front of the open block is one more in front of the first block. */
  lemma {:induction false} BlocksInFront(lines: seq<Line>, front: Line, open: seq<Line>)
    ensures var blocks, more := Blocks(lines, open), Blocks(lines, [front] + open);
            && |more| == |blocks|
            && (blocks != [] ==> more == [Block([front] + blocks[0].lines, blocks[0].blank)] + blocks[1..])
  {
    if lines != [] {
      BlocksUnfold(lines, open);
      BlocksUnfold(lines, [front] + open);
      if lines[0].content != [] {
        assert ([front] + open) + [lines[0]] == [front] + (open + [lines[0]]);
        BlocksInFront(lines[1..], front, open + [lines[0]]);
      }
    }
  }

  lemma {:induction false} EndingBehindMark(t: Octets)
    ensures NextEnding(BOM + t) == |BOM| + NextEnding(t)
  {
    var s := BOM + t;
    assert s[1..][1..][1..] == t;
    assert NextEnding(s) == 1 + NextEnding(s[1..]);
    assert NextEnding(s[1..]) == 1 + NextEnding(s[1..][1..]);
    assert NextEnding(s[1..][1..]) == 1 + NextEnding(s[1..][1..][1..]);
  }

  lemma EndingBehind(mark: Octets, t: Octets, i: nat)
    requires i < |t| && (t[i] == CR || t[i] == LF)
    ensures (mark + t)[|mark| + i] == t[i] && EndingAt(mark + t, |mark| + i) == EndingAt(t, i)
  {
    var s := mark + t;
    assert s[|mark| + i] == t[i];
    assert |mark| + i + 1 < |s| ==> s[|mark| + i + 1] == t[i + 1];
  }

  lemma SliceBehind(mark: Octets, t: Octets, n: nat)
    requires n <= |t|
    ensures (mark + t)[..|mark| + n] == mark + t[..n] && (mark + t)[|mark| + n..] == t[n..]
  {
  }

  lemma FirstLineAt(s: Octets, i: nat, ending: Octets)
    requires NextEnding(s) == i < |s| && ending == EndingAt(s, i)
    ensures FirstLine(s) == Line(s[..i], ending) && AfterFirst(s) == s[i + |ending|..]
  {
    hide NextEnding;
    hide EndingAt;
  }

  lemma FirstBehindMark(mark: Octets, t: Octets)
    requires NextEnding(t) < |t| && NextEnding(mark + t) == |mark| + NextEnding(t)
    ensures FirstLine(mark + t) == Line(mark + FirstLine(t).content, FirstLine(t).ending)
    ensures AfterFirst(mark + t) == AfterFirst(t)
  {
    hide NextEnding;
    hide EndingAt;
    hide FirstLine;
    hide AfterFirst;
    var i := NextEnding(t);
    var ending := EndingAt(t, i);
    var n := i + |ending|;
    EndingBehind(mark, t, i);
    SliceBehind(mark, t, i);
    SliceBehind(mark, t, n);
    FirstLineAt(t, i, ending);
    FirstLineAt(mark + t, |mark| + i, ending);
  }

  /** A mark at the start belongs to the first line and changes no other. */
  lemma LinesBehindMark(t: Octets)
    ensures NextEnding(t) == |t| ==> Lines(BOM + t) == [] && Lines(t) == []
    ensures NextEnding(t) < |t| ==>
              && Lines(t) == [FirstLine(t)] + Lines(AfterFirst(t))
              && Lines(BOM + t) == [Line(BOM + FirstLine(t).content, FirstLine(t).ending)] + Lines(AfterFirst(t))
  {
    hide NextEnding;
    hide FirstLine;
    hide AfterFirst;
    EndingBehindMark(t);
    if NextEnding(t) < |t| {
      FirstBehindMark(BOM, t);
      LinesUnfold(BOM + t);
      LinesUnfold(t);
    } else {
      NoLine(BOM + t);
      NoLine(t);
    }
  }

  lemma NoLine(s: Octets)
    requires NextEnding(s) == |s|
    ensures Lines(s) == []
  {
  }

  /** Against a stream without its mark: the frame of the first block is right whatever it opens with,
      and each other block stands for itself. */
  lemma MarkDropped(s: Octets)
    ensures var blocks := Blocks(Lines(s), []);
            StandardEvents(s) ==
            if blocks == [] then [] else One(Dispatched(Unmarked(Contents(blocks[0].lines)))) + EventsOf(blocks[1..])
  {
    if BOM <= s {
      var t := s[|BOM|..];
      assert s == BOM + t;
      MarkedStream(t);
    } else {
      var blocks := Blocks(Lines(s), []);
      if blocks != [] {
        UnmarkedFirst(s);
      }
    }
  }

  /** How a stream's blocks follow from those behind its first line. */
  lemma FirstBlock(first: Line, later: seq<Line>)
    ensures var blocks := Blocks(later, []);
            Blocks([first] + later, []) ==
            if first.content == [] then [Block([], first)] + blocks
            else if blocks == [] then []
            else [Block([first] + blocks[0].lines, blocks[0].blank)] + blocks[1..]
  {
    BlocksUnfold([first] + later, []);
    assert ([first] + later)[1..] == later;
    assert [] + [first] == [first] + [];
    BlocksInFront(later, first, []);
  }

  lemma MarkedStream(t: Octets)
    ensures var blocks := Blocks(Lines(BOM + t), []);
            EventsOf(Blocks(Lines(t), [])) ==
            if blocks == [] then [] else One(Dispatched(Unmarked(Contents(blocks[0].lines)))) + EventsOf(blocks[1..])
  {
    hide Blocks;
    hide Contents;
    hide Unmarked;
    hide Dispatched;
    hide One;
    LinesBehindMark(t);
    NoLines();
    if NextEnding(t) < |t| {
      var first, later := FirstLine(t), Lines(AfterFirst(t));
      FirstBlock(first, later);
      FirstBlock(Line(BOM + first.content, first.ending), later);
      var blocks := Blocks(later, []);
      if first.content == [] {
        EventsCons(Block([], first), blocks);
      }
      if blocks != [] {
        MarkedFirst(first, blocks[0].lines);
        EventsCons(Block([first] + blocks[0].lines, blocks[0].blank), blocks[1..]);
      }
    }
  }

  lemma NoLines()
    ensures Blocks([], []) == [] && EventsOf([]) == [] && One(Dispatched(Contents([]))) == []
  {
    assert Contents([]) == [];
    assert DataBuffer([]) == [];
  }

  lemma EventsCons(block: Block, blocks: seq<Block>)
    ensures EventsOf([block] + blocks) == One(Dispatched(Contents(block.lines))) + EventsOf(blocks)
  {
    assert ([block] + blocks)[1..] == blocks;
  }

  /** The marked line, unmarked, is the line behind the mark; an empty one has no say. */
  lemma MarkedFirst(first: Line, lines: seq<Line>)
    ensures Unmarked(Contents([Line(BOM + first.content, first.ending)] + lines)) == Contents([first] + lines)
    ensures first.content == [] ==> Dispatched(Contents([first] + lines)) == Dispatched(Contents(lines))
  {
    var marked := Line(BOM + first.content, first.ending);
    assert marked.content[|BOM|..] == first.content;
    assert Contents([marked] + lines) == [marked.content] + Contents(lines);
    assert Contents([first] + lines) == [first.content] + Contents(lines);
    BufferSplit([first.content], Contents(lines));
    BufferOne(first.content);
    if first.content == [] {
      assert [] + DataBuffer(Contents(lines)) == DataBuffer(Contents(lines));
    }
  }

  lemma UnmarkedLine(line: Line, lines: seq<Line>, rest: Octets)
    requires !(BOM <= line.content + rest)
    ensures Unmarked(Contents([line] + lines)) == Contents([line] + lines)
  {
    var s, contents := line.content + rest, Contents([line] + lines);
    assert |line.content| >= 3 ==> s[..3] == line.content[..3];
    assert contents == [line.content] + contents[1..];
  }

  lemma UnmarkedFirst(s: Octets)
    requires !(BOM <= s) && Blocks(Lines(s), []) != []
    ensures var contents := Contents(Blocks(Lines(s), [])[0].lines); Unmarked(contents) == contents
  {
    hide Blocks;
    hide Contents;
    hide FirstLine;
    hide AfterFirst;
    NoLines();
    var first, later := FirstLine(s), Lines(AfterFirst(s));
    LinesUnfold(s);
    hide Lines;
    FirstBlock(first, later);
    if first.content != [] {
      var rest := first.ending + AfterFirst(s);
      Assoc(first.content, first.ending, AfterFirst(s));
      UnmarkedLine(first, Blocks(later, [])[0].lines, rest);
    } else {
      NothingUnmarked();
    }
  }

  lemma NothingUnmarked()
    ensures Unmarked(Contents([])) == Contents([])
  {
    assert Contents([]) == [];
  }

  /** End to end: the data read off the frames of a stream, however it is cut, is the data the standard
      dispatches for it, exactly when no block but the first opens with a mark and a data field behind it. */
  lemma StreamEvents(chunks: seq<Octets>, settings: Settings)
    requires settings.delimiter == Strip && !Deliver(INITIAL, chunks, settings).TooLarge?
    ensures var s := Concat(chunks);
            var blocks := Blocks(Lines(s), []);
            EventsRead(Deliver(INITIAL, chunks, settings).frames) == StandardEvents(s) <==>
            !Hides(if blocks == [] then [] else blocks[1..])
  {
    hide Contents;
    hide Unmarked;
    hide DataBuffer;
    hide Dispatched;
    hide EventData;
    hide HidesData;
    hide Body;
    hide LineShape;
    hide One;
    hide Weight;
    hide EventsRead;
    hide FramesOf;
    hide EventsOf;
    hide Blocks;
    hide Lines;
    hide Deliver;
    hide Concat;
    hide StandardEvents;
    hide Wire;
    var s := Concat(chunks);
    var blocks := Blocks(Lines(s), []);
    StripDelivers(chunks, settings);
    MarkDropped(s);
    BlocksHaveShape(s);
    if blocks == [] {
      NoFrames(0);
    } else {
      var lines, later, next := blocks[0].lines, blocks[1..], |Body(blocks[0].lines)|;
      FramesUnfold(blocks, 0);
      FrameData(lines);
      assert Shaped(later);
      ReadsMore(later, next);
      var one := One(EventData(Body(lines)));
      WeightSplit(one, EventsOf(later));
      WeightSplit(one, EventsRead(FramesOf(later, next)));
    }
  }
}

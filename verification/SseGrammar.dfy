/** The line and event grammar of an event stream (WHATWG HTML Standard, sections
    9.2.5 and 9.2.6), and the proof that strip mode emits exactly its blocks. */
module SseGrammar {
  import opened Bytes
  import opened SseFramer
  import opened SseChunks

  /** A line and the line ending that closes it: CR, LF or CRLF. */
  datatype Line = Line(content: Octets, ending: Octets)

  /** The lines of a block and the blank line that ends it. */
  datatype Block = Block(lines: seq<Line>, blank: Line)

  function NextEnding(s: Octets): (i: nat)
    ensures i <= |s| && Plain(s[..i])
    ensures i < |s| ==> s[i] == CR || s[i] == LF
  {
    if s == [] || s[0] == CR || s[0] == LF then 0 else
      var i := 1 + NextEnding(s[1..]);
      assert forall j :: 0 < j < i ==> s[j] == s[1..][j - 1];
      i
  }

  function EndingAt(s: Octets, i: nat): (ending: Octets)
    requires i < |s| && (s[i] == CR || s[i] == LF)
    ensures i + |ending| <= |s| && ending == s[i..i + |ending|]
  {
    if s[i] == CR && i + 1 < |s| && s[i + 1] == LF then [CR, LF] else [s[i]]
  }

  function FirstLine(s: Octets): (line: Line)
    requires NextEnding(s) < |s|
    ensures |line.ending| > 0 && |line.content| + |line.ending| <= |s|
    ensures s == line.content + line.ending + s[|line.content| + |line.ending|..]
  {
    var i := NextEnding(s);
    Line(s[..i], EndingAt(s, i))
  }

  function AfterFirst(s: Octets): (rest: Octets)
    requires NextEnding(s) < |s|
    ensures |rest| < |s| && s == FirstLine(s).content + FirstLine(s).ending + rest
  {
    s[|FirstLine(s).content| + |FirstLine(s).ending|..]
  }

  /** The closed lines of a stream. */
  function Lines(s: Octets): seq<Line>
    decreases |s|
  {
    if NextEnding(s) == |s| then [] else [FirstLine(s)] + Lines(AfterFirst(s))
  }

  /** The bytes after the last line ending. */
  function Unfinished(s: Octets): Octets
    decreases |s|
  {
    if NextEnding(s) == |s| then s else Unfinished(AfterFirst(s))
  }

  function Render(lines: seq<Line>): Octets {
    if lines == [] then [] else
      var last := lines[|lines| - 1];
      Render(lines[..|lines| - 1]) + last.content + last.ending
  }

  /** A block without its final delimiter: the last line's ending and the blank line. */
  function Body(lines: seq<Line>): Octets {
    if lines == [] then [] else Render(lines[..|lines| - 1]) + lines[|lines| - 1].content
  }

  lemma BodyIsPrefix(lines: seq<Line>)
    ensures |Body(lines)| <= |Render(lines)| && Body(lines) == Render(lines)[..|Body(lines)|]
  {
  }

  /** Blank lines end blocks; `open` are the lines of the block being read. */
  function Blocks(lines: seq<Line>, open: seq<Line>): seq<Block> {
    if lines == [] then []
    else if lines[0].content == [] then [Block(open, lines[0])] + Blocks(lines[1..], [])
    else Blocks(lines[1..], open + [lines[0]])
  }

  /** The lines after the last blank line. */
  function Open(lines: seq<Line>, open: seq<Line>): seq<Line> {
    if lines == [] then open
    else if lines[0].content == [] then Open(lines[1..], [])
    else Open(lines[1..], open + [lines[0]])
  }

  /** All bytes of a block, as they count against the size limit. */
  function Wire(block: Block): nat {
    |Render(block.lines)| + |block.blank.ending|
  }

  /** The frames of blocks that all fit. */
  function FramesOf(blocks: seq<Block>, offset: nat): seq<Frame> {
    if blocks == [] then [] else
      [Frame(offset, Body(blocks[0].lines))] + FramesOf(blocks[1..], offset + |Body(blocks[0].lines)|)
  }

  datatype Result = Result(frames: seq<Frame>, tooLarge: bool)

  /** Blocks are emitted until one exceeds the limit. A block whose CR still fits
      is emitted even when the LF after that CR does not. */
  function Reference(blocks: seq<Block>, pending: nat, offset: nat, maximum: nat): Result {
    if blocks == [] then
      Result([], pending > maximum)
    else if |Render(blocks[0].lines)| + 1 > maximum then
      Result([], true)
    else
      var frame := Frame(offset, Body(blocks[0].lines));
      if Wire(blocks[0]) > maximum then
        Result([frame], true)
      else
        var rest := Reference(blocks[1..], pending, offset + |frame.data|, maximum);
        Result([frame] + rest.frames, rest.tooLarge)
  }

  /** Lines and endings are read off the stream, and nothing else is lost. */
  lemma {:induction false} LinesRoundTrip(s: Octets)
    ensures Render(Lines(s)) + Unfinished(s) == s
    decreases |s|
  {
    if NextEnding(s) == |s| {
      assert Render([]) + s == s;
    } else {
      var first, rest := FirstLine(s), AfterFirst(s);
      LinesRoundTrip(rest);
      RenderCons(first, Lines(rest));
      Assoc(first.content + first.ending, Render(Lines(rest)), Unfinished(rest));
    }
  }

  ghost predicate LineShape(line: Line) {
    Plain(line.content) && (line.ending == [CR] || line.ending == [LF] || line.ending == [CR, LF])
  }

  lemma {:induction false} LinesShape(s: Octets)
    ensures Plain(Unfinished(s)) && forall l :: l in Lines(s) ==> LineShape(l)
    decreases |s|
  {
    if NextEnding(s) == |s| {
      assert s[..|s|] == s;
    } else {
      LinesShape(AfterFirst(s));
      assert LineShape(FirstLine(s));
    }
  }

  lemma {:induction false} RenderCons(first: Line, rest: seq<Line>)
    ensures Render([first] + rest) == first.content + first.ending + Render(rest)
  {
    var all := [first] + rest;
    if rest == [] {
      assert all[..0] == [];
    } else {
      assert all[..|all| - 1] == [first] + rest[..|rest| - 1];
      RenderCons(first, rest[..|rest| - 1]);
    }
  }

  lemma FlattenUnfold(block: Block, blocks: seq<Block>)
    ensures FlattenLines([block] + blocks) == block.lines + [block.blank] + FlattenLines(blocks)
  {
    assert ([block] + blocks)[1..] == blocks;
  }

  lemma LinesRegroup(a: seq<Line>, b: seq<Line>, c: seq<Line>)
    ensures a + b + c == a + (b + c)
  {
  }

  lemma LinesCons(open: seq<Line>, lines: seq<Line>)
    requires lines != []
    ensures open + [lines[0]] + lines[1..] == open + lines && [] + lines[1..] == lines[1..]
  {
  }

  /** Every closed line is in one block or still open, in order. */
  lemma {:induction false} BlocksPartition(lines: seq<Line>, open: seq<Line>)
    ensures FlattenLines(Blocks(lines, open)) + Open(lines, open) == open + lines
  {
    if lines == [] {
      assert open + lines == open;
    } else {
      BlocksUnfold(lines, open);
      LinesCons(open, lines);
      hide Blocks;
      hide Open;
      hide FlattenLines;
      if lines[0].content == [] {
        var later := Blocks(lines[1..], []);
        FlattenUnfold(Block(open, lines[0]), later);
        BlocksPartition(lines[1..], []);
        LinesRegroup(open + [lines[0]], FlattenLines(later), Open(lines[1..], []));
      } else {
        BlocksPartition(lines[1..], open + [lines[0]]);
      }
    }
  }

  /** A block is the lines up to its blank line, none of which is blank. */
  lemma {:induction false} BlocksEndBlank(lines: seq<Line>, open: seq<Line>)
    requires forall l :: l in open ==> l.content != []
    ensures forall b :: b in Blocks(lines, open) ==> b.blank.content == [] && forall l :: l in b.lines ==>
            l.content != []
  {
    if lines == [] {
    } else if lines[0].content == [] {
      BlocksUnfold(lines, open);
      BlocksEndBlank(lines[1..], []);
      hide Blocks;
    } else {
      BlocksUnfold(lines, open);
      BlocksEndBlank(lines[1..], open + [lines[0]]);
      hide Blocks;
    }
  }

  function FlattenLines(blocks: seq<Block>): seq<Line> {
    if blocks == [] then [] else blocks[0].lines + [blocks[0].blank] + FlattenLines(blocks[1..])
  }

  /** The framer between two lines. */
  ghost predicate AtLineStart(m: Machine, s: Octets, open: seq<Line>, offset: nat, settings: Settings) {
    && Coherent(m, settings)
    && m.frame == Render(open) && m.delimiterStart == |Body(open)|
    && !m.lineHasData && m.emitted == offset
    && !(m.afterCR && s != [] && s[0] == LF)
  }

  ghost predicate IsEnding(ending: Octets, s: Octets) {
    || (ending == [CR] && !(s != [] && s[0] == LF))
    || ending == [LF]
    || ending == [CR, LF]
  }

  lemma FeedEnding(m: Machine, ending: Octets, s: Octets, settings: Settings)
    requires Coherent(m, settings) && IsEnding(ending, s)
    ensures var o := Step(m, ending[0], [], settings);
            Feed(m, ending, [], settings) ==
            if |ending| == 1 || o.TooLarge? then o
            else (StepCoherent(m, ending[0], [], settings); Step(o.machine, LF, o.frames, settings))
  {
    StepCoherent(m, ending[0], [], settings);
    var o := Step(m, ending[0], [], settings);
    if |ending| == 2 {
      assert ending == [CR] + [LF] && [CR][1..] == [] && [LF][1..] == [];
      FeedSplit(m, [CR], [LF], [], settings);
      if o.More? {
        StepCoherent(o.machine, LF, o.frames, settings);
        assert Feed(o.machine, [LF], o.frames, settings) == Step(o.machine, LF, o.frames, settings);
      }
    } else {
      assert ending[1..] == [];
    }
  }

  /** The ending of a line with content keeps the block open. */
  lemma EndDataLine(m: Machine, s: Octets, open: seq<Line>, line: Line, offset: nat, settings: Settings)
    requires settings.delimiter == Strip && Coherent(m, settings) && IsEnding(line.ending, s)
    requires !m.afterCR && m.lineHasData && m.emitted == offset && line.content != []
    requires m.frame == Render(open) + line.content
    ensures var o := Feed(m, line.ending, [], settings);
            if |m.frame| + |line.ending| > settings.maximum then o == TooLarge([])
            else o.More? && o.frames == [] && AtLineStart(o.machine, s, open + [line], offset, settings)
  {
    FeedEnding(m, line.ending, s, settings);
    assert (open + [line])[..|open|] == open;
    BodyIsPrefix(open + [line]);
    assert m.frame + [CR] + [LF] == m.frame + [CR, LF];
  }

  /** The ending of a blank line emits the block, unless the line ending itself is too much. */
  lemma EndBlankLine(m: Machine, s: Octets, open: seq<Line>, ending: Octets, offset: nat, settings: Settings)
    requires settings.delimiter == Strip && IsEnding(ending, s)
    requires AtLineStart(m, ending, open, offset, settings)
    ensures var o := Feed(m, ending, [], settings);
            var frame := Frame(offset, Body(open));
            if |Render(open)| + 1 > settings.maximum then o == TooLarge([])
            else if |Render(open)| + |ending| > settings.maximum then o == TooLarge([frame])
            else o.More? && o.frames == [frame] && AtLineStart(o.machine, s, [], offset + |Body(open)|, settings)
  {
    FeedEnding(m, ending, s, settings);
    BodyIsPrefix(open);
    assert (m.frame + [ending[0]])[..|Body(open)|] == Body(open);
  }

  /** Once the open block exceeds the limit, nothing more is emitted. */
  lemma {:induction false} OverflowSticks(lines: seq<Line>, open: seq<Line>, more: nat, offset: nat, maximum: nat)
    requires |Render(open)| > maximum
    ensures Reference(Blocks(lines, open), |Render(Open(lines, open))| + more, offset, maximum) == Result([], true)
  {
    if lines != [] && lines[0].content != [] {
      assert (open + [lines[0]])[..|open|] == open;
      OverflowSticks(lines[1..], open + [lines[0]], more, offset, maximum);
    }
  }

  /** The framer over the first line of `s`. */
  lemma FeedFirstLine(m: Machine, s: Octets, open: seq<Line>, offset: nat, settings: Settings)
    requires settings.delimiter == Strip && AtLineStart(m, s, open, offset, settings) && NextEnding(s) < |s|
    ensures var line := FirstLine(s);
            var o := Feed(m, line.content + line.ending, [], settings);
            var frame := Frame(offset, Body(open));
            var whole := |Render(open)| + |line.content| + |line.ending|;
            if line.content != [] then
              if whole > settings.maximum then o == TooLarge([])
              else o.More? && o.frames == [] && AtLineStart(o.machine, AfterFirst(s), open + [line], offset, settings)
            else if |Render(open)| + 1 > settings.maximum then o == TooLarge([])
            else if whole > settings.maximum then o == TooLarge([frame])
            else
              && o.More? && o.frames == [frame]
              && AtLineStart(o.machine, AfterFirst(s), [], offset + |Body(open)|, settings)
  {
    var line, rest := FirstLine(s), AfterFirst(s);
    assert IsEnding(line.ending, rest);
    if line.content == [] {
      assert line.content + line.ending == line.ending;
      assert line.ending[0] == s[0];
      EndBlankLine(m, rest, open, line.ending, offset, settings);
    } else {
      var left := LeaveCR(m);
      assert line.content[0] == s[0];
      LeavingCR(m, line.content + line.ending, [], settings);
      FeedSplit(left, line.content, line.ending, [], settings);
      FeedPlain(left, line.content, [], settings);
      if |Render(open)| + |line.content| <= settings.maximum {
        var grown := Feed(left, line.content, [], settings).machine;
        EndDataLine(grown, rest, open, line, offset, settings);
      }
    }
  }

  /** The same, line by line: `open` are the lines of the block being read. */
  function Expected(lines: seq<Line>, unfinished: nat, open: seq<Line>, offset: nat, maximum: nat): Result {
    if lines == [] then
      Result([], |Render(open)| + unfinished > maximum)
    else
      var line := lines[0];
      if line.content != [] then
        if |Render(open)| + |line.content| + |line.ending| > maximum then Result([], true)
        else Expected(lines[1..], unfinished, open + [line], offset, maximum)
      else if |Render(open)| + 1 > maximum then
        Result([], true)
      else
        var frame := Frame(offset, Body(open));
        if |Render(open)| + |line.ending| > maximum then
          Result([frame], true)
        else
          var rest := Expected(lines[1..], unfinished, [], offset + |frame.data|, maximum);
          Result([frame] + rest.frames, rest.tooLarge)
  }

  lemma RenderLast(open: seq<Line>, line: Line)
    ensures Render(open + [line]) == Render(open) + line.content + line.ending
  {
    assert (open + [line])[..|open|] == open;
  }

  lemma ReferenceUnfold(block: Block, blocks: seq<Block>, pending: nat, offset: nat, maximum: nat)
    ensures var r := Reference([block] + blocks, pending, offset, maximum);
            var frame := Frame(offset, Body(block.lines));
            if |Render(block.lines)| + 1 > maximum then r == Result([], true)
            else if Wire(block) > maximum then r == Result([frame], true)
            else
              var after := Reference(blocks, pending, offset + |Body(block.lines)|, maximum);
              r == Result([frame] + after.frames, after.tooLarge)
  {
    assert ([block] + blocks)[1..] == blocks;
  }

  lemma BlocksUnfold(lines: seq<Line>, open: seq<Line>)
    requires lines != []
    ensures Blocks(lines, open) ==
            if lines[0].content == [] then [Block(open, lines[0])] + Blocks(lines[1..], [])
                else Blocks(lines[1..], open + [lines[0]])
    ensures Open(lines, open) ==
            if lines[0].content == [] then Open(lines[1..], []) else Open(lines[1..], open + [lines[0]])
  {
  }

  /** Line by line or block by block, the grammar lets the same frames through. */
  lemma {:induction false} ExpectedIsReference(lines: seq<Line>, unfinished: nat, open: seq<Line>, offset: nat,
      maximum: nat)
    ensures Expected(lines, unfinished, open, offset, maximum) ==
            Reference(Blocks(lines, open), |Render(Open(lines, open))| + unfinished, offset, maximum)
  {
    if lines != [] {
      var line, later := lines[0], lines[1..];
      BlocksUnfold(lines, open);
      if line.content != [] {
        RenderLast(open, line);
        if |Render(open + [line])| > maximum {
          OverflowSticks(later, open + [line], unfinished, offset, maximum);
        } else {
          ExpectedIsReference(later, unfinished, open + [line], offset, maximum);
        }
      } else {
        ReferenceUnfold(Block(open, line), Blocks(later, []), |Render(Open(later, []))| + unfinished, offset, maximum);
        ExpectedIsReference(later, unfinished, [], offset + |Body(open)|, maximum);
      }
    }
  }

  function Observed(o: Outcome): Result {
    Result(o.frames, o.TooLarge?)
  }

  lemma LinesUnfold(s: Octets)
    requires NextEnding(s) < |s|
    ensures Lines(s) == [FirstLine(s)] + Lines(AfterFirst(s))
    ensures Unfinished(s) == Unfinished(AfterFirst(s))
  {
  }

  lemma StripUnfinished(m: Machine, s: Octets, open: seq<Line>, offset: nat, settings: Settings)
    requires settings.delimiter == Strip && AtLineStart(m, s, open, offset, settings) && NextEnding(s) == |s|
    ensures Observed(Feed(m, s, [], settings)) == Expected(Lines(s), |Unfinished(s)|, open, offset, settings.maximum)
  {
    if s != [] {
      assert s[..|s|] == s;
      LeavingCR(m, s, [], settings);
      FeedPlain(LeaveCR(m), s, [], settings);
    }
  }

  lemma FeedAfter(m: Machine, first: Octets, rest: Octets, settings: Settings)
    requires settings.delimiter == Strip && Coherent(m, settings)
    ensures var o := Feed(m, first, [], settings);
            Feed(m, first + rest, [], settings) ==
            if o.TooLarge? then o else Prefixed(o.frames, Feed(o.machine, rest, [], settings))
  {
    FeedSplit(m, first, rest, [], settings);
    var o := Feed(m, first, [], settings);
    if o.More? {
      StripAccumulates(o.machine, rest, o.frames, settings);
    }
  }

  lemma ExpectedUnfold(line: Line, later: seq<Line>, unfinished: nat, open: seq<Line>, offset: nat, maximum: nat)
    ensures var frame := Frame(offset, Body(open));
            var whole := |Render(open)| + |line.content| + |line.ending|;
            Expected([line] + later, unfinished, open, offset, maximum) ==
            if line.content != [] then
              if whole > maximum then Result([], true) else Expected(later, unfinished, open + [line], offset, maximum)
            else if |Render(open)| + 1 > maximum then Result([], true)
            else if whole > maximum then Result([frame], true)
            else
              var r := Expected(later, unfinished, [], offset + |Body(open)|, maximum);
              Result([frame] + r.frames, r.tooLarge)
  {
    assert ([line] + later)[1..] == later;
  }

  /** Strip mode from any line start: exactly the blocks of the grammar, up to the first that is too large. */
  lemma {:induction false} StripFollowsGrammar(m: Machine, s: Octets, open: seq<Line>, offset: nat, settings: Settings)
    requires settings.delimiter == Strip && AtLineStart(m, s, open, offset, settings)
    ensures Observed(Feed(m, s, [], settings)) == Expected(Lines(s), |Unfinished(s)|, open, offset, settings.maximum)
    decreases |s|
  {
    hide Lines;
    hide Unfinished;
    hide FirstLine;
    hide AfterFirst;
    hide NextEnding;
    hide Expected;
    hide Feed;
    hide Render;
    hide Body;
    if NextEnding(s) == |s| {
      StripUnfinished(m, s, open, offset, settings);
    } else {
      LinesUnfold(s);
      var line, rest := FirstLine(s), AfterFirst(s);
      FeedAfter(m, line.content + line.ending, rest, settings);
      FeedFirstLine(m, s, open, offset, settings);
      ExpectedUnfold(line, Lines(rest), |Unfinished(rest)|, open, offset, settings.maximum);
      var o := Feed(m, line.content + line.ending, [], settings);
      if o.More? {
        if line.content != [] {
          StripFollowsGrammar(o.machine, rest, open + [line], offset, settings);
        } else {
          StripFollowsGrammar(o.machine, rest, [], offset + |Body(open)|, settings);
        }
      }
    }
  }

  lemma StripFromStart(s: Octets, settings: Settings)
    requires settings.delimiter == Strip
    ensures Observed(Feed(INITIAL, s, [], settings)) == Expected(Lines(s), |Unfinished(s)|, [], 0, settings.maximum)
  {
    assert AtLineStart(INITIAL, s, [], 0, settings);
    StripFollowsGrammar(INITIAL, s, [], 0, settings);
  }

  /** What the blocks of a whole stream let through. */
  function OfBlocks(lines: seq<Line>, unfinished: Octets, maximum: nat): Result {
    Reference(Blocks(lines, []), |Render(Open(lines, []))| + |unfinished|, 0, maximum)
  }

  lemma FromStart(lines: seq<Line>, unfinished: Octets, open: seq<Line>, offset: nat, maximum: nat)
    requires open == [] && offset == 0
    ensures Expected(lines, |unfinished|, open, offset, maximum) == OfBlocks(lines, unfinished, maximum)
  {
    ExpectedIsReference(lines, |unfinished|, open, offset, maximum);
  }

  lemma WholeStream(o: Outcome, s: Octets, lines: seq<Line>, settings: Settings)
    requires settings.delimiter == Strip && o == Feed(INITIAL, s, [], settings) && lines == Lines(s)
    ensures Observed(o) == OfBlocks(lines, Unfinished(s), settings.maximum)
  {
    StripFromStart(s, settings);
    FromStart(lines, Unfinished(s), [], 0, settings.maximum);
  }

  /** In any chunks, strip mode emits the blocks of the grammar, up to the first too large. */
  lemma StripEmitsBlocks(chunks: seq<Octets>, settings: Settings)
    requires settings.delimiter == Strip
    ensures var s := Concat(chunks);
            Observed(Deliver(INITIAL, chunks, settings)) == OfBlocks(Lines(s), Unfinished(s), settings.maximum)
  {
    StripChunking(INITIAL, chunks, settings);
    WholeStream(Deliver(INITIAL, chunks, settings), Concat(chunks), Lines(Concat(chunks)), settings);
  }

  /** The size error occurs exactly when some block, or the unfinished one, exceeds the limit. */
  lemma {:induction false} TooLargeIff(blocks: seq<Block>, pending: nat, offset: nat, maximum: nat)
    requires forall b :: b in blocks ==> |b.blank.ending| > 0
    ensures var r := Reference(blocks, pending, offset, maximum);
            && (r.tooLarge <==> (exists b :: b in blocks && Wire(b) > maximum) || pending > maximum)
            && (!r.tooLarge ==> r.frames == FramesOf(blocks, offset))
  {
    hide Render;
    hide Body;
    if blocks != [] {
      assert blocks == [blocks[0]] + blocks[1..];
      TooLargeIff(blocks[1..], pending, offset + |Body(blocks[0].lines)|, maximum);
    }
  }
}

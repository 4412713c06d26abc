/** The data of one framed event (WHATWG HTML Standard, section 9.2.6). */
module SseData {
  import opened Bytes
  import opened Options
  import opened SseFramer
  import opened SseGrammar

  const COLON: byte := 58
  const SPACE: byte := 32
  const DATA: Octets := [100, 97, 116, 97]
  const BOM: Octets := [0xEF, 0xBB, 0xBF]

  predicate IsBreak(b: byte) { b == CR || b == LF }

  function TrimPrefix(s: Octets, prefix: Octets): Octets {
    if prefix <= s then s[|prefix|..] else s
  }

  /** The nonempty runs of bytes between line endings. */
  function Fields(s: Octets): seq<Octets>
    decreases |s|
  {
    if s == [] then []
    else if IsBreak(s[0]) then Fields(s[1..])
    else [s[..NextEnding(s)]] + Fields(s[NextEnding(s)..])
  }

  function IndexColon(line: Octets): (i: nat)
    ensures i <= |line| && (i < |line| ==> line[i] == COLON)
  {
    if line == [] || line[0] == COLON then 0 else 1 + IndexColon(line[1..])
  }

  /** The value of a data field; no other field has one here. */
  function DataValue(line: Octets): Option<Octets> {
    var i := IndexColon(line);
    if line[..i] != DATA then None
    else Some(TrimPrefix(if i < |line| then line[i + 1..] else [], [SPACE]))
  }

  /** Every data value followed by a line feed. */
  function DataBuffer(lines: seq<Octets>): Octets {
    if lines == [] then []
    else
      var front := DataBuffer(lines[..|lines| - 1]);
      match DataValue(lines[|lines| - 1])
      case None => front
      case Some(value) => front + value + [LF]
  }

  /** The buffer without its last line feed, or nothing when no line is a data field. */
  function Dispatched(lines: seq<Octets>): Option<Octets> {
    var buffer := DataBuffer(lines);
    if buffer == [] then None else Some(buffer[..|buffer| - 1])
  }

  function EventData(frame: Octets): Option<Octets> {
    Dispatched(Fields(TrimPrefix(frame, BOM)))
  }

  /** The loop of the source: a nil result and an empty one stay apart. */
  method SSEData(frame: Octets) returns (r: Option<Octets>)
    ensures r == EventData(frame)
  {
    var lines := Fields(TrimPrefix(frame, BOM));
    var data: Octets := [];
    var found := false;
    var i := 0;
    while i < |lines|
      invariant i <= |lines| && data == DataBuffer(lines[..i]) && found == (data != [])
    {
      assert lines[..i + 1][..i] == lines[..i];
      var value := DataValue(lines[i]);
      if value.Some? {
        data := data + value.value;
        data := data + [LF];
        found := true;
      }
      i := i + 1;
    }
    assert lines[..i] == lines;
    r := if found then Some(data[..|data| - 1]) else None;
  }

  lemma {:induction false} FieldsPlain(content: Octets, rest: Octets)
    requires content != [] && Plain(content) && (rest == [] || IsBreak(rest[0]))
    ensures NextEnding(content + rest) == |content|
    ensures Fields(content + rest) == [content] + Fields(rest)
  {
    var s := content + rest;
    var i := NextEnding(s);
    assert forall j :: 0 <= j < |content| ==> s[j] == content[j];
    assert rest != [] ==> s[|content|] == rest[0];
    assert forall j :: 0 <= j < i ==> s[..i][j] == s[j];
    assert s[0] == content[0];
    assert s[..|content|] == content && s[|content|..] == rest;
  }

  lemma FieldsSkip(ending: Octets, rest: Octets)
    requires ending == [CR] || ending == [LF] || ending == [CR, LF]
    ensures Fields(ending + rest) == Fields(rest)
  {
    assert (ending + rest)[1..] == ending[1..] + rest;
    if |ending| == 1 {
      assert [] + rest == rest;
    } else {
      assert ending[1..] == [LF];
      assert ([LF] + rest)[1..] == rest;
    }
  }

  lemma FieldsOfLine(line: Line, rest: Octets)
    requires LineShape(line) && line.content != []
    ensures Fields(line.content + line.ending + rest) == [line.content] + Fields(rest)
  {
    FieldsPlain(line.content, line.ending + rest);
    FieldsSkip(line.ending, rest);
    Assoc(line.content, line.ending, rest);
  }

  function Contents(lines: seq<Line>): seq<Octets> {
    seq(|lines|, i requires 0 <= i < |lines| => lines[i].content)
  }

  lemma NothingRendered(lines: seq<Line>)
    requires lines == []
    ensures Render(lines) == []
  {
  }

  lemma BodyCons(first: Line, rest: seq<Line>)
    ensures Body([first] + rest) == if rest == [] then first.content else first.content + first.ending + Body(rest)
  {
    hide Render;
    var all := [first] + rest;
    if rest == [] {
      assert all[..0] == [];
      NothingRendered(all[..0]);
      assert [] + first.content == first.content;
    } else {
      var front, last := rest[..|rest| - 1], rest[|rest| - 1].content;
      assert all[..|all| - 1] == [first] + front;
      RenderCons(first, front);
      Assoc(first.content + first.ending, Render(front), last);
    }
  }

  /** A frame's fields are exactly the lines of its block. */
  lemma {:induction false} FieldsOfBody(lines: seq<Line>)
    requires forall l :: l in lines ==> LineShape(l) && l.content != []
    ensures Fields(Body(lines)) == Contents(lines)
  {
    if lines != [] {
      var first, rest := lines[0], lines[1..];
      assert lines == [first] + rest && first in lines;
      assert Contents(lines) == [first.content] + Contents(rest);
      BodyCons(first, rest);
      FieldsOfBody(rest);
      if rest == [] {
        FieldsPlain(first.content, []);
        assert first.content + [] == first.content;
      } else {
        FieldsOfLine(first, Body(rest));
      }
    }
  }

  lemma {:induction false} BufferSplit(a: seq<Octets>, b: seq<Octets>)
    ensures DataBuffer(a + b) == DataBuffer(a) + DataBuffer(b)
  {
    hide DataValue;
    if b == [] {
      assert a + b == a;
    } else {
      assert (a + b)[..|a + b| - 1] == a + b[..|b| - 1];
      BufferSplit(a, b[..|b| - 1]);
    }
  }

  lemma BufferOne(line: Octets)
    ensures DataBuffer([line]) == if DataValue(line).Some? then DataValue(line).value + [LF] else []
  {
    assert [line][..0] == [];
    assert DataBuffer([]) == [];
  }

  /** The data decides the buffer. */
  lemma DispatchedSame(a: seq<Octets>, b: seq<Octets>)
    ensures Dispatched(a) == Dispatched(b) <==> DataBuffer(a) == DataBuffer(b)
  {
    BufferEnds(a);
    BufferEnds(b);
    var x, y := DataBuffer(a), DataBuffer(b);
    if x != [] && y != [] && x[..|x| - 1] == y[..|y| - 1] {
      assert x == x[..|x| - 1] + [LF] && y == y[..|y| - 1] + [LF];
    }
  }

  /** The lines of a block when a byte order mark in front of them is dropped. */
  function Unmarked(contents: seq<Octets>): seq<Octets> {
    if contents == [] then [] else [TrimPrefix(contents[0], BOM)] + contents[1..]
  }

  /** A block that opens with a byte order mark and a data field right behind it. */
  predicate HidesData(lines: seq<Line>) {
    lines != [] && BOM <= lines[0].content && DataValue(lines[0].content[|BOM|..]).Some?
  }

  lemma TrimFirst(content: Octets, tail: Octets)
    requires tail == [] || IsBreak(tail[0])
    ensures TrimPrefix(content + tail, BOM) == TrimPrefix(content, BOM) + tail
  {
    var s := content + tail;
    if |content| < 3 {
      assert tail != [] ==> s[|content|] == tail[0];
    } else {
      assert s[..3] == content[..3] && s[3..] == content[3..] + tail;
    }
  }

  /** What stands behind the first line of a body has the remaining lines as its fields. */
  lemma FieldsBehind(first: Line, rest: seq<Line>) returns (tail: Octets)
    requires LineShape(first) && forall l :: l in rest ==> LineShape(l) && l.content != []
    ensures Body([first] + rest) == first.content + tail && (tail == [] || IsBreak(tail[0]))
    ensures Fields(tail) == Contents(rest)
  {
    BodyCons(first, rest);
    FieldsOfBody(rest);
    if rest == [] {
      tail := [];
      assert first.content + [] == first.content;
    } else {
      tail := first.ending + Body(rest);
      FieldsSkip(first.ending, Body(rest));
      Assoc(first.content, first.ending, Body(rest));
    }
  }

  /** The frame of a block gives the data its lines dispatch, but for a byte order mark in front of them. */
  lemma FrameData(lines: seq<Line>)
    requires forall l :: l in lines ==> LineShape(l) && l.content != []
    ensures EventData(Body(lines)) == Dispatched(Unmarked(Contents(lines)))
  {
    if lines == [] {
      assert Contents(lines) == [];
    } else {
      var first, rest := lines[0], lines[1..];
      assert lines == [first] + rest && first in lines;
      assert Contents(lines)[1..] == Contents(rest);
      var tail := FieldsBehind(first, rest);
      TrimFirst(first.content, tail);
      var content := TrimPrefix(first.content, BOM);
      BufferSplit([content], Contents(rest));
      BufferOne(content);
      if content == [] {
        assert content + tail == tail;
        assert [] + DataBuffer(Contents(rest)) == DataBuffer(Contents(rest));
      } else {
        FieldsPlain(content, tail);
      }
    }
  }

  lemma MarkedValue(line: Octets)
    requires BOM <= line
    ensures DataValue(line) == None
  {
    var i := IndexColon(line);
    if i > 0 {
      assert line[..i][0] == BOM[0];
    }
  }

  /** Dropping the mark lengthens the buffer by the data field it hides, and changes nothing otherwise. */
  lemma UnmarkedBuffer(lines: seq<Line>)
    ensures HidesData(lines) ==> |DataBuffer(Unmarked(Contents(lines)))| > |DataBuffer(Contents(lines))|
    ensures !HidesData(lines) ==> DataBuffer(Unmarked(Contents(lines))) == DataBuffer(Contents(lines))
  {
    if lines != [] && BOM <= lines[0].content {
      var content, rest := lines[0].content, Contents(lines)[1..];
      assert Contents(lines) == [content] + rest;
      MarkedValue(content);
      BufferSplit([content], rest);
      BufferOne(content);
      BufferSplit([TrimPrefix(content, BOM)], rest);
      BufferOne(TrimPrefix(content, BOM));
    } else if lines != [] {
      assert Unmarked(Contents(lines)) == Contents(lines);
    }
  }

  /** A frame gives exactly the data the grammar gives its block, unless a mark hides a data field. */
  lemma FrameDataIff(lines: seq<Line>)
    requires forall l :: l in lines ==> LineShape(l) && l.content != []
    ensures EventData(Body(lines)) == Dispatched(Contents(lines)) <==> !HidesData(lines)
  {
    FrameData(lines);
    UnmarkedBuffer(lines);
    DispatchedSame(Unmarked(Contents(lines)), Contents(lines));
  }

  /** A block of one marked line: the frame has data, the block has none. */
  lemma MarkedFrame(value: Octets)
    requires Plain(value)
    ensures var line := Line(BOM + (DATA + [COLON, SPACE] + value), [LF]);
            EventData(Body([line])) == Some(value) && Dispatched(Contents([line])) == None
  {
    var field := DATA + [COLON, SPACE] + value;
    var line := Line(BOM + field, [LF]);
    assert Contents([line]) == [BOM + field];
    FrameData([line]);
    assert (BOM + field)[|BOM|..] == field;
    assert Unmarked([BOM + field]) == [field];
    DataField(value);
    BufferOne(field);
    MarkedValue(BOM + field);
    BufferOne(BOM + field);
    assert (value + [LF])[..|value|] == value;
  }

  /** What a data field is, byte by byte: the name alone, or the name, a colon and a value, which loses one leading
      space. */
  lemma DataValueIff(line: Octets, value: Octets)
    ensures DataValue(line) == Some(value) <==>
            || (line == [100, 97, 116, 97] && value == [])
            || (&& |line| >= 5 && line[..5] == [100, 97, 116, 97, 58]
                && value == if |line| > 5 && line[5] == 32 then line[6..] else line[5..])
  {
    var i := IndexColon(line);
    ColonFirst(line);
    if i == 4 && i < |line| && line[..4] == DATA {
      assert line[..5] == DATA + [COLON];
    }
    if |line| >= 5 && line[..5] == [100, 97, 116, 97, 58] {
      assert forall j :: 0 <= j < 5 ==> line[j] == line[..5][j];
      ColonAt(line, 4);
      assert line[..4] == line[..5][..4] == DATA;
    } else if i == |line| {
      assert line[..i] == line;
    }
    if i < |line| && line[i + 1..] != [] {
      assert line[i + 1..][0] == line[i + 1] && line[i + 1..][1..] == line[i + 2..];
      assert [SPACE] <= line[i + 1..] <==> line[i + 1] == SPACE;
    }
  }

  /** There is no colon before the first. */
  lemma {:induction false} ColonFirst(line: Octets)
    ensures forall j :: 0 <= j < IndexColon(line) ==> line[j] != COLON
  {
    if line != [] && line[0] != COLON {
      ColonFirst(line[1..]);
      assert forall j :: 0 < j < IndexColon(line) ==> line[j] == line[1..][j - 1];
    }
  }

  lemma DataField(value: Octets)
    ensures DataValue(DATA + [COLON, SPACE] + value) == Some(value)
  {
    var field := DATA + [COLON, SPACE] + value;
    ColonAt(field, 4);
    assert field[..4] == DATA;
    assert field[5..] == [SPACE] + value;
    assert ([SPACE] + value)[1..] == value;
  }

  lemma {:induction false} ColonAt(line: Octets, i: nat)
    requires i < |line| && line[i] == COLON && forall j :: 0 <= j < i ==> line[j] != COLON
    ensures IndexColon(line) == i
  {
    if i > 0 {
      ColonAt(line[1..], i - 1);
    }
  }

  /** The lines of every block of every stream have the shape a frame is read with. */
  lemma BlocksHaveShape(s: Octets)
    ensures forall b :: b in Blocks(Lines(s), []) ==> forall l :: l in b.lines ==> LineShape(l) && l.content != []
  {
    LinesShape(s);
    BlocksShape(Lines(s), []);
  }

  lemma {:induction false} BlocksShape(lines: seq<Line>, open: seq<Line>)
    requires forall l :: l in lines ==> LineShape(l)
    requires forall l :: l in open ==> LineShape(l) && l.content != []
    ensures forall b :: b in Blocks(lines, open) ==>
              b.blank.content == [] && |b.blank.ending| > 0 && forall l :: l in b.lines ==>
                LineShape(l) && l.content != []
  {
    if lines != [] {
      assert lines[0] in lines;
      BlocksUnfold(lines, open);
      BlocksShape(lines[1..], if lines[0].content == [] then [] else open + [lines[0]]);
    }
  }

  /** The joined form: values separated, not terminated, by line feeds. */
  lemma DispatchedLast(lines: seq<Octets>, last: Octets)
    requires DataValue(last).Some?
    ensures Dispatched(lines + [last]) ==
            match Dispatched(lines)
            case None => Some(DataValue(last).value)
            case Some(data) => Some(data + [LF] + DataValue(last).value)
  {
    assert (lines + [last])[..|lines|] == lines;
    var front, value := DataBuffer(lines), DataValue(last).value;
    BufferEnds(lines);
    var whole := front + value + [LF];
    assert whole[..|whole| - 1] == front + value;
    if front == [] {
      assert front + value == value;
    } else {
      assert front == front[..|front| - 1] + [LF];
    }
  }

  /** Any other line adds nothing, and without data fields there is no data. */
  lemma DispatchedOther(lines: seq<Octets>, last: Octets)
    requires DataValue(last).None?
    ensures Dispatched(lines + [last]) == Dispatched(lines) && Dispatched([]) == None
  {
    assert (lines + [last])[..|lines|] == lines;
    assert DataBuffer([]) == [];
  }

  lemma {:induction false} BufferEnds(lines: seq<Octets>)
    ensures var buffer := DataBuffer(lines); buffer == [] || buffer[|buffer| - 1] == LF
  {
    if lines != [] {
      BufferEnds(lines[..|lines| - 1]);
    }
  }
}

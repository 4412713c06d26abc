/** Bounding an output by its runes: the first and the last runes are kept, with a
    marker between them that counts the bytes left out. */
module Output {
  import opened Bytes
  import opened Utf8
  import opened Utf8Scalars

  const MAX_OUTPUT_LENGTH := 1_000_000

  /** A bounded output before it is written out: all of it, or what is kept around the marker. */
  datatype Bounded = Complete(text: Octets) | Cut(head: Octets, skipped: int, tail: Octets)

  function Text(s: string): Octets {
    seq(|s|, i requires 0 <= i < |s| => if (s[i] as int) < 256 then s[i] as int else 0)
  }

  function Decimal(n: nat): (d: Octets)
    ensures d != []
  {
    if n < 10 then [48 + n] else Decimal(n / 10) + [48 + n % 10]
  }

  /** The number a decimal numeral stands for. */
  function Numeral(d: Octets): int {
    if d == [] then 0 else Numeral(d[..|d| - 1]) * 10 + (d[|d| - 1] as int - 48)
  }

  /** The marker tells the reader the count exactly. */
  lemma {:induction false} DecimalRoundTrip(n: nat)
    ensures Numeral(Decimal(n)) == n
  {
    if n >= 10 {
      DecimalRoundTrip(n / 10);
      assert Decimal(n)[..|Decimal(n)| - 1] == Decimal(n / 10);
    }
  }

  function Signed(n: int): Octets {
    if n < 0 then Text("-") + Decimal(-n) else Decimal(n)
  }

  function Marker(skipped: int, path: Octets): Octets {
    Text("...") + Signed(skipped) + Text(" bytes truncated")
    + (if path == [] then [] else Text("; complete output in ") + path)
    + Text("...")
  }

  /** The bytes of the first `n` runes, or of all of them. */
  function HeadSize(s: Octets, n: nat): (size: nat)
    ensures size <= |s| && size <= UTF_MAX * n
  {
    if s == [] || n == 0 then 0 else RuneSize(s) + HeadSize(s[RuneSize(s)..], n - 1)
  }

  /** The bytes of the last `n` runes, counted backwards. */
  function TailSize(s: Octets, n: nat): (size: nat)
    ensures size <= |s| && size <= UTF_MAX * n
  {
    if s == [] || n == 0 then 0 else
      var k := LastRuneSize(s);
      k + TailSize(s[..|s| - k], n - 1)
  }

  lemma {:induction false} HeadGrows(s: Octets, n: nat)
    requires HeadSize(s, n) < |s|
    ensures HeadSize(s, n + 1) == HeadSize(s, n) + RuneSize(s[HeadSize(s, n)..])
    decreases n
  {
    if n > 0 {
      var rest := s[RuneSize(s)..];
      HeadGrows(rest, n - 1);
      assert rest[HeadSize(rest, n - 1)..] == s[HeadSize(s, n)..];
    }
  }

  lemma {:induction false} TailGrows(s: Octets, n: nat)
    requires TailSize(s, n) < |s|
    ensures TailSize(s, n + 1) == TailSize(s, n) + LastRuneSize(s[..|s| - TailSize(s, n)])
    decreases n
  {
    if n == 0 {
      assert s[..|s|] == s;
    } else {
      var rest := s[..|s| - LastRuneSize(s)];
      TailGrows(rest, n - 1);
      assert rest[..|rest| - TailSize(rest, n - 1)] == s[..|s| - TailSize(s, n)];
    }
  }

  lemma {:induction false} HeadAll(s: Octets, n: nat, more: nat)
    requires HeadSize(s, n) == |s|
    ensures HeadSize(s, n + more) == |s|
    decreases n
  {
    if s != [] && n > 0 {
      HeadAll(s[RuneSize(s)..], n - 1, more);
    }
  }

  lemma {:induction false} TailAll(s: Octets, n: nat, more: nat)
    requires TailSize(s, n) == |s|
    ensures TailSize(s, n + more) == |s|
    decreases n
  {
    if s != [] && n > 0 {
      TailAll(s[..|s| - LastRuneSize(s)], n - 1, more);
    }
  }

  /** The two loops of the source; a negative limit keeps nothing. */
  method OutputPart(text: Octets, limit: int, tail: bool) returns (part: Octets, size: nat)
    ensures var n := if limit < 0 then 0 else limit;
            size == (if tail then TailSize(text, n) else HeadSize(text, n))
    ensures part == Sanitize(if tail then text[|text| - size..] else text[..size])
  {
    hide RuneSize;
    hide LastRuneSize;
    var left := limit;
    ghost var n := if limit < 0 then 0 else limit;
    ghost var done := 0;
    if tail {
      var start := |text|;
      while start > 0 && left > 0
        invariant 0 <= start <= |text| && 0 <= done <= n && left == limit - done
        invariant start == |text| - TailSize(text, done)
      {
        TailGrows(text, done);
        start := start - LastRuneSize(text[..start]);
        left := left - 1;
        done := done + 1;
      }
      if start == 0 {
        TailAll(text, done, n - done);
      }
      return Sanitize(text[start..]), |text| - start;
    }
    var end := 0;
    while end < |text| && left > 0
      invariant 0 <= end <= |text| && 0 <= done <= n && left == limit - done
      invariant end == HeadSize(text, done)
    {
      HeadGrows(text, done);
      end := end + RuneSize(text[end..]);
      left := left - 1;
      done := done + 1;
    }
    if end == |text| {
      HeadAll(text, done, n - done);
    }
    return Sanitize(text[..end]), end;
  }

  /** The text a bounded output is shown as. */
  function Shown(b: Bounded, path: Octets): Octets {
    match b
    case Complete(text) => text
    case Cut(head, skipped, tail) => head + Marker(skipped, path) + tail
  }

  /** What bounding gives for a head, a tail and the size of the whole. */
  function BoundedOutput(head: Octets, tail: Octets, fullSize: nat, limit: int): Bounded
    requires tail == [] ==> fullSize == |head|
  {
    var n: nat := if limit < 0 then 0 else limit;
    if tail == [] && RuneCount(head) <= n then
      Complete(Sanitize(head))
    else
      var last := if tail == [] then head else tail;
      var h, t := HeadSize(head, n / 2), TailSize(last, n - n / 2);
      Cut(Sanitize(head[..h]), fullSize - (h + t), Sanitize(last[|last| - t..]))
  }

  /** The source panics on an empty tail without the complete output: its callers must exclude that. */
  method BoundOutputParts(head: Octets, tail: Octets, fullSize: nat, limit: int, path: Octets)
      returns (text: Octets, truncated: bool)
    requires tail == [] ==> fullSize == |head|
    ensures var b := BoundedOutput(head, tail, fullSize, limit);
            text == Shown(b, path) && truncated == b.Cut?
  {
    hide Sanitize;
    hide Marker;
    hide HeadSize;
    hide TailSize;
    var bound: nat := if limit < 0 then 0 else limit;
    var last := tail;
    if tail == [] {
      if RuneCount(head) <= bound {
        return Sanitize(head), false;
      }
      last := head;
    }
    var headText, headSize := OutputPart(head, bound / 2, false);
    var tailText, tailSize := OutputPart(last, bound - bound / 2, true);
    ghost var cut := Cut(headText, fullSize - (headSize + tailSize), tailText);
    assert cut == BoundedOutput(head, tail, fullSize, limit);
    var marker := Marker(fullSize - (headSize + tailSize), path);
    return headText + marker + tailText, true;
  }

  /** Bounding a complete output. */
  function Whole(text: Octets, limit: int): Bounded {
    BoundedOutput(text, [], |text|, limit)
  }

  lemma {:induction false} HeadIsRunes(s: Octets, n: nat)
    requires n <= RuneCount(s)
    ensures Runes(s[..HeadSize(s, n)]) == Runes(s)[..n]
    decreases n
  {
    hide StartsWellFormed;
    if n > 0 {
      var k := RuneSize(s);
      HeadIsRunes(s[k..], n - 1);
      RunesFirst(s, k, HeadSize(s, n));
      assert s[k..][..HeadSize(s[k..], n - 1)] == s[k..HeadSize(s, n)];
    } else {
      assert s[..0] == [];
    }
  }

  lemma {:induction false} TailIsRunes(s: Octets, n: nat)
    requires n <= RuneCount(s)
    ensures var cut := |s| - TailSize(s, n);
            Runes(s[cut..]) == Runes(s)[RuneCount(s) - n..] && Runes(s[..cut]) == Runes(s)[..RuneCount(s) - n]
    decreases n
  {
    hide LastRuneSize;
    hide RuneSize;
    if n == 0 {
      assert s[|s|..] == [] && s[..|s|] == s;
    } else {
      LastAgrees(s);
      TailIsRunes(s[..|s| - LastRuneSize(s)], n - 1);
      TailFromBack(s, n);
    }
  }

  /** The last rune, put back behind the ones before it. */
  lemma TailFromBack(s: Octets, n: nat)
    requires 0 < n <= RuneCount(s)
    requires var k := LastRuneSize(s);
             var front := s[..|s| - k];
             && Runes(s) == Runes(front) + [s[|s| - k..]]
             && var cut := |front| - TailSize(front, n - 1);
             Runes(front[..cut]) == Runes(front)[..RuneCount(front) - (n - 1)]
    ensures var cut := |s| - TailSize(s, n);
            Runes(s[cut..]) == Runes(s)[RuneCount(s) - n..] && Runes(s[..cut]) == Runes(s)[..RuneCount(s) - n]
  {
    hide LastRuneSize;
    hide Runes;
    var k := LastRuneSize(s);
    var front := s[..|s| - k];
    var cut := |s| - TailSize(s, n);
    assert front[..cut] == s[..cut];
    PrefixFixesSuffix(s, cut, RuneCount(s) - n);
  }

  /** If the runes before a cut are the first runes of the whole, those after it are the rest. */
  lemma PrefixFixesSuffix(s: Octets, cut: nat, k: nat)
    requires cut <= |s| && k <= RuneCount(s) && Runes(s[..cut]) == Runes(s)[..k]
    ensures Runes(s[cut..]) == Runes(s)[k..]
  {
    var at := RunesSplit(s, k);
    RunesConcat(s[..at]);
    RunesConcat(s[..cut]);
    assert s[..at] == s[..cut];
    assert |s[..at]| == at && |s[..cut]| == cut;
  }

  lemma KeptSizes(s: Octets, k: nat, m: nat)
    requires k + m < RuneCount(s)
    ensures HeadSize(s, k) + TailSize(s, m) < |s|
  {
    hide Runes;
    hide HeadSize;
    hide TailSize;
    HeadIsRunes(s, k);
    TailIsRunes(s, m);
    var h, cut, rest := HeadSize(s, k), |s| - TailSize(s, m), RuneCount(s) - m;
    RunesConcat(s[..h]);
    RunesConcat(s[..cut]);
    assert Runes(s)[..rest] == Runes(s)[..k] + Runes(s)[k..rest];
    ConcatSplit(Runes(s)[..k], Runes(s)[k..rest]);
    RunesNonEmpty(s);
    assert Runes(s)[k..rest][0] in Runes(s);
  }

  /** Truncation keeps exactly the first limit/2 and the last limit - limit/2 runes; they do
      not overlap, and the marker states the positive number of bytes between them. */
  lemma TruncationKeeps(text: Octets, limit: nat)
    requires RuneCount(text) > limit
    ensures var h, t := HeadSize(text, limit / 2), TailSize(text, limit - limit / 2);
            && h + t < |text|
            && Runes(text[..h]) == Runes(text)[..limit / 2]
            && Runes(text[|text| - t..]) == Runes(text)[RuneCount(text) - (limit - limit / 2)..]
            && Whole(text, limit) == Cut(Sanitize(text[..h]), |text[h..|text| - t]|, Sanitize(text[|text| - t..]))
  {
    hide Runes;
    hide HeadSize;
    hide TailSize;
    hide Sanitize;
    HeadIsRunes(text, limit / 2);
    TailIsRunes(text, limit - limit / 2);
    KeptSizes(text, limit / 2, limit - limit / 2);
  }

  lemma {:induction false} RunesNonEmpty(s: Octets)
    ensures forall r :: r in Runes(s) ==> r != []
    decreases |s|
  {
    if s != [] {
      RunesNonEmpty(s[RuneSize(s)..]);
    }
  }

  /** A text within the limit is shown whole, well-formed. */
  lemma ShortIsWhole(text: Octets, limit: nat)
    requires RuneCount(text) <= limit
    ensures Whole(text, limit) == Complete(Sanitize(text)) && WellFormed(Sanitize(text))
    ensures forall path :: Shown(Whole(text, limit), path) == Sanitize(text)
  {
    SanitizeWellFormed(text);
  }

  lemma {:induction false} DecimalDigits(n: nat)
    ensures forall d :: d in Decimal(n) ==> 48 <= d <= 57
  {
    if n >= 10 {
      DecimalDigits(n / 10);
    }
  }

  /** What a reader sees of a text over the limit: its first and last runes, and between them dots, a numeral that
      reads as the number of bytes left out, the note, where to find the rest, and dots. */
  lemma MarkerReads(text: Octets, limit: nat, path: Octets) returns (digits: Octets)
    requires RuneCount(text) > limit
    ensures digits != [] && forall d :: d in digits ==> 48 <= d <= 57
    ensures var h, t := HeadSize(text, limit / 2), TailSize(text, limit - limit / 2);
            && h + t < |text| && Numeral(digits) == |text| - h - t
            && Shown(Whole(text, limit), path) ==
               Sanitize(text[..h]) + ([46, 46, 46] + digits + Text(" bytes truncated")
                 + (if path == [] then [] else Text("; complete output in ") + path) + [46, 46, 46])
               + Sanitize(text[|text| - t..])
  {
    hide Runes;
    hide HeadSize;
    hide TailSize;
    hide Sanitize;
    hide Decimal;
    TruncationKeeps(text, limit);
    var h, t := HeadSize(text, limit / 2), TailSize(text, limit - limit / 2);
    digits := Decimal(|text| - h - t);
    DecimalRoundTrip(|text| - h - t);
    DecimalDigits(|text| - h - t);
    assert Text("...") == [46, 46, 46];
  }

  /** A count is shown with its sign. */
  lemma SignedReads(n: int)
    ensures n >= 0 ==> Numeral(Signed(n)) == n
    ensures n < 0 ==> Signed(n)[..1] == [45] && Numeral(Signed(n)[1..]) == -n
  {
    if n < 0 {
      DecimalRoundTrip(-n);
      assert Text("-") == [45];
      assert Signed(n)[1..] == Decimal(-n);
    } else {
      DecimalRoundTrip(n);
    }
  }

  /** A negative limit is none at all: every text but an empty one is cut to its marker. */
  lemma NegativeLimit(text: Octets, limit: int)
    requires limit < 0
    ensures Whole(text, limit) == if text == [] then Complete([]) else Cut([], |text|, [])
  {
    assert text[..0] == [] && text[|text|..] == [];
    hide StartsWellFormed;
  }

  /** A text is its characters' codes. */
  lemma TextIs(s: string, i: nat)
    requires i < |s| && (s[i] as int) < 256
    ensures |Text(s)| == |s| && Text(s)[i] == s[i] as int
  {
  }
}

/** UTF-8 over arbitrary bytes (RFC 3629, sections 3 and 4), decoded forwards and
    backwards. A position where no well-formed sequence starts counts as one
    rune of one byte, the replacement character. */
module Utf8 {
  import opened Bytes

  const UTF_MAX := 4
  const REPLACEMENT := 0xFFFD

  predicate IsContinuation(b: byte) { 0x80 <= b <= 0xBF }

  /** The bytes allowed second after a leading byte that has a second byte. */
  predicate SecondOK(lead: byte, b: byte) {
    && IsContinuation(b)
    && (lead == 0xE0 ==> b >= 0xA0)
    && (lead == 0xED ==> b <= 0x9F)
    && (lead == 0xF0 ==> b >= 0x90)
    && (lead == 0xF4 ==> b <= 0x8F)
  }

  /** How many bytes a sequence with this leading byte has; 0 when none starts with it. */
  function Width(lead: byte): nat {
    if lead < 0x80 then 1
    else if 0xC2 <= lead <= 0xDF then 2
    else if 0xE0 <= lead <= 0xEF then 3
    else if 0xF0 <= lead <= 0xF4 then 4
    else 0
  }

  /** Whether `s` starts with a well-formed sequence. */
  predicate StartsWellFormed(s: Octets)
    requires s != []
  {
    var w := Width(s[0]);
    && 0 < w <= |s|
    && (w >= 2 ==> SecondOK(s[0], s[1]))
    && (w >= 3 ==> IsContinuation(s[2]))
    && (w >= 4 ==> IsContinuation(s[3]))
  }

  /** The size of the first rune, as utf8.DecodeRune reports it. */
  function RuneSize(s: Octets): (n: nat)
    requires s != []
    ensures 1 <= n <= UTF_MAX && n <= |s|
  {
    if StartsWellFormed(s) then Width(s[0]) else 1
  }

  /** The nearest position at or below `start` that is no continuation byte; below `lim` the scan gives up. */
  function ScanBack(s: Octets, start: int, lim: nat): (p: int)
    requires -1 <= start < |s|
    ensures lim - 1 <= p <= start || p == start < lim - 1
    ensures p >= lim ==> !IsContinuation(s[p])
    ensures forall i :: p < i <= start ==> i >= 0 && IsContinuation(s[i])
    decreases start + 1
  {
    if start < lim || !IsContinuation(s[start]) then start else ScanBack(s, start - 1, lim)
  }

  /** The size of the last rune, as utf8.DecodeLastRune reports it. */
  function LastRuneSize(s: Octets): (n: nat)
    requires s != []
    ensures 1 <= n <= UTF_MAX && n <= |s|
  {
    var end := |s|;
    if s[end - 1] < 0x80 then 1 else
      var lim := if end < UTF_MAX then 0 else end - UTF_MAX;
      var found := ScanBack(s, end - 2, lim);
      var start := if found < 0 then 0 else found;
      var size := RuneSize(s[start..]);
      if start + size != end then 1 else size
  }

  /** Forward segmentation. */
  function Runes(s: Octets): (r: seq<Octets>)
    decreases |s|
  {
    if s == [] then [] else [s[..RuneSize(s)]] + Runes(s[RuneSize(s)..])
  }

  /** Backward segmentation. */
  function RunesBackward(s: Octets): seq<Octets>
    decreases |s|
  {
    if s == [] then [] else
      var cut := |s| - LastRuneSize(s);
      RunesBackward(s[..cut]) + [s[cut..]]
  }

  function RuneCount(s: Octets): nat {
    |Runes(s)|
  }

  /** Only the bytes of a rune decide its size: what follows may be cut off. */
  lemma RuneSizeCut(s: Octets, n: nat)
    requires s != [] && RuneSize(s) <= n <= |s|
    ensures RuneSize(s[..n]) == RuneSize(s)
  {
  }

  lemma RuneSizeWindow(s: Octets, n: nat)
    requires s != [] && (n >= UTF_MAX || n == |s|) && n <= |s|
    ensures RuneSize(s[..n]) == RuneSize(s)
  {
  }

  lemma RuneShape(s: Octets)
    requires s != []
    ensures forall i :: 1 <= i < RuneSize(s) ==> IsContinuation(s[i])
    ensures RuneSize(s) >= 2 ==> !IsContinuation(s[0])
  {
  }

  lemma {:induction false} RunesConcat(s: Octets)
    ensures Concat(Runes(s)) == s
    decreases |s|
  {
    if s != [] {
      RunesConcat(s[RuneSize(s)..]);
    }
  }

  /** The last rune of the forward segmentation, and the segmentation of what precedes it. */
  lemma {:induction false} ForwardLast(s: Octets) returns (cut: nat)
    requires s != []
    ensures cut < |s| && Runes(s) == Runes(s[..cut]) + [s[cut..]] && RuneSize(s[cut..]) == |s| - cut
    decreases |s|
  {
    hide RuneSize;
    hide Runes;
    var n := RuneSize(s);
    NoRunes(s);
    RunesFirst(s, n, |s|);
    assert s[..|s|] == s && s[n..|s|] == s[n..];
    if n == |s| {
      cut := 0;
      NoRunes(s[n..]);
      assert s[n..] == [] && [s] + [] == [s];
    } else {
      var rest := s[n..];
      var cut' := ForwardLast(rest);
      cut := n + cut';
      RunesFirst(s, n, cut);
      assert s[cut..] == rest[cut'..] && s[n..cut] == rest[..cut'];
      Regroup([s[..n]], Runes(rest[..cut']), [rest[cut'..]]);
    }
  }

  /** A first rune of `n` bytes, given before any cut `p` after it. */
  lemma RunesFirst(s: Octets, n: nat, p: nat)
    requires s != [] && n == RuneSize(s) && n <= p <= |s|
    ensures Runes(s[..p]) == [s[..n]] + Runes(s[n..p])
  {
    RuneSizeCut(s, p);
    assert s[..p][..n] == s[..n] && s[..p][n..] == s[n..p];
  }

  /** Every byte that is no continuation byte starts a rune. */
  lemma {:induction false} StartIsBoundary(s: Octets, p: nat)
    requires p < |s| && !IsContinuation(s[p])
    ensures Runes(s) == Runes(s[..p]) + Runes(s[p..])
    decreases |s|, 1
  {
    if p == 0 {
      assert s[..0] == [] && s[0..] == s;
    } else {
      var n := RuneSize(s);
      RuneShape(s);
      RunesFirst(s, n, p);
      RunesFirst(s, n, |s|);
      assert s[..|s|] == s;
      BoundaryTail(s, n, p);
      Regroup([s[..n]], Runes(s[n..p]), Runes(s[p..]));
    }
  }

  lemma {:induction false} BoundaryTail(s: Octets, n: nat, p: nat)
    requires 0 < n <= p < |s| && !IsContinuation(s[p])
    ensures Runes(s[n..|s|]) == Runes(s[n..p]) + Runes(s[p..])
    decreases |s| - n, 2
  {
    var rest := s[n..|s|];
    StartIsBoundary(rest, p - n);
    assert rest[..p - n] == s[n..p] && rest[p - n..] == s[p..];
  }

  lemma Regroup(a: seq<Octets>, b: seq<Octets>, c: seq<Octets>)
    ensures a + (b + c) == a + b + c
  {
  }

  lemma WholeRune(s: Octets)
    requires s != [] && RuneSize(s) == |s|
    ensures Runes(s) == [s]
  {
    assert s[..|s|] == s && s[|s|..] == [];
  }

  lemma LongerLast(s: Octets, p: nat)
    requires p + 1 < |s| && !IsContinuation(s[p]) && RuneSize(s[p..]) == |s| - p
    ensures |Runes(s)| > 0 && |Runes(s)[|Runes(s)| - 1]| > 1
  {
    StartIsBoundary(s, p);
    WholeRune(s[p..]);
  }

  lemma LastOf(runes: seq<Octets>, last: Octets)
    ensures (runes + [last])[|runes|] == last
  {
  }

  /** If the last rune is one byte, no leading byte before it starts a rune that reaches the end. */
  lemma NotLonger(s: Octets, p: nat)
    requires p + 1 < |s| && !IsContinuation(s[p])
    requires Runes(s) == Runes(s[..|s| - 1]) + [s[|s| - 1..]]
    ensures RuneSize(s[p..]) != |s| - p
  {
    hide Runes;
    hide RuneSize;
    if RuneSize(s[p..]) == |s| - p {
      LongerLast(s, p);
      LastOf(Runes(s[..|s| - 1]), s[|s| - 1..]);
    }
  }

  /** Where the backward scan looks for the last rune. */
  lemma LastByScan(s: Octets, lim: nat, found: int, start: nat)
    requires s != [] && s[|s| - 1] >= 0x80 && lim == (if |s| < UTF_MAX then 0 else |s| - UTF_MAX)
    requires found == ScanBack(s, |s| - 2, lim) && start == (if found < 0 then 0 else found)
    ensures LastRuneSize(s) == if start + RuneSize(s[start..]) != |s| then 1 else RuneSize(s[start..])
  {
    hide RuneSize;
    hide ScanBack;
  }

  lemma AsciiAlone(s: Octets)
    requires s != [] && s[|s| - 1] < 0x80
    ensures LastRuneSize(s) == 1
  {
  }

  /** A one-byte last rune is what the backward scan falls back to. */
  lemma LastIsOne(s: Octets)
    requires s != [] && Runes(s) == Runes(s[..|s| - 1]) + [s[|s| - 1..]]
    ensures LastRuneSize(s) == 1
  {
    hide Runes;
    hide ScanBack;
    hide RuneSize;
    hide LastRuneSize;
    if s[|s| - 1] < 0x80 {
      AsciiAlone(s);
    } else {
      var end := |s|;
      var lim := if end < UTF_MAX then 0 else end - UTF_MAX;
      var found := ScanBack(s, end - 2, lim);
      var start := if found < 0 then 0 else found;
      LastByScan(s, lim, found, start);
      if found >= lim {
        NotLonger(s, found);
      } else if lim == 0 && end >= 2 {
        assert IsContinuation(s[0]);
        assert s[0..] == s;
        ContinuationAlone(s);
      }
    }
  }

  lemma ContinuationAlone(s: Octets)
    requires s != [] && IsContinuation(s[0])
    ensures RuneSize(s) == 1
  {
  }

  /** A longer last rune is found by its leading byte. */
  lemma LastIsLong(s: Octets, cut: nat)
    requires cut + 2 <= |s| && RuneSize(s[cut..]) == |s| - cut
    ensures LastRuneSize(s) == |s| - cut
  {
    RuneShape(s[cut..]);
    assert forall i :: cut <= i < |s| ==> s[i] == s[cut..][i - cut];
  }

  /** Decoding backwards finds the rune that decoding forwards ends with. */
  lemma LastAgrees(s: Octets)
    requires s != []
    ensures var cut := |s| - LastRuneSize(s); Runes(s) == Runes(s[..cut]) + [s[cut..]]
  {
    var cut := ForwardLast(s);
    if cut + 2 <= |s| {
      LastIsLong(s, cut);
    } else {
      LastIsOne(s);
    }
  }

  /** Forward and backward segmentation of any bytes coincide. */
  lemma {:induction false} SegmentationsCoincide(s: Octets)
    ensures Runes(s) == RunesBackward(s)
    decreases |s|
  {
    if s != [] {
      LastAgrees(s);
      SegmentationsCoincide(s[..|s| - LastRuneSize(s)]);
    }
  }

  lemma RunesUnfold(s: Octets)
    requires s != []
    ensures Runes(s) == [s[..RuneSize(s)]] + Runes(s[RuneSize(s)..])
  {
    hide RuneSize;
  }

  lemma SliceTwice(s: Octets, n: nat, rest: nat)
    requires n + rest <= |s|
    ensures s[..n + rest][..n] == s[..n] && s[..n + rest][n..] == s[n..][..rest] && s[n + rest..] == s[n..][rest..]
  {
  }

  lemma TakeDrop(first: Octets, runes: seq<Octets>, k: nat)
    requires 0 < k <= |runes| + 1
    ensures ([first] + runes)[..k] == [first] + runes[..k - 1] && ([first] + runes)[k..] == runes[k - 1..]
  {
  }

  /** The first rune, put before a split of the rest. */
  lemma SplitStep(s: Octets, k: nat, n: nat, rest: nat)
    requires s != [] && n == RuneSize(s) && n + rest <= |s| && 0 < k <= |Runes(s[n..])| + 1
    requires Runes(s[n..][..rest]) == Runes(s[n..])[..k - 1] && Runes(s[n..][rest..]) == Runes(s[n..])[k - 1..]
    ensures Runes(s[..n + rest]) == Runes(s)[..k] && Runes(s[n + rest..]) == Runes(s)[k..]
  {
    hide Runes;
    hide RuneSize;
    SliceTwice(s, n, rest);
    RuneSizeCut(s, n + rest);
    RunesUnfold(s);
    RunesUnfold(s[..n + rest]);
    TakeDrop(s[..n], Runes(s[n..]), k);
  }

  lemma NoRunes(s: Octets)
    ensures s[..0] == [] && s[0..] == s && Runes(s[..0]) == []
  {
  }

  lemma NotNoRunes(s: Octets)
    requires RuneCount(s) > 0
    ensures s != []
  {
    hide RuneSize;
  }

  /** Cutting at the end of a rune splits the segmentation. */
  lemma {:induction false} RunesSplit(s: Octets, k: nat) returns (cut: nat)
    requires k <= RuneCount(s)
    ensures cut <= |s| && Runes(s[..cut]) == Runes(s)[..k] && Runes(s[cut..]) == Runes(s)[k..]
    decreases k
  {
    hide RuneSize;
    hide Runes;
    if k == 0 {
      cut := 0;
      NoRunes(s);
    } else {
      NotNoRunes(s);
      var n := RuneSize(s);
      assert 0 < n <= |s| && |Runes(s)| == 1 + |Runes(s[n..])| by { RunesUnfold(s); }
      var rest := RunesSplit(s[n..], k - 1);
      cut := n + rest;
      SplitStep(s, k, n, rest);
    }
  }
}

/** A long output is bounded from its first and last bytes alone: windows of four
    bytes a rune show the same head, tail and byte count as the whole. */
module OutputWindow {
  import opened Bytes
  import opened Utf8
  import opened Utf8Scalars
  import opened Output

  /** The backward scan sees the same bytes in a suffix. */
  lemma {:induction false} ScanBackShift(s: Octets, d: nat, start: int, lim: nat)
    requires d <= lim && lim - 1 <= start < |s|
    ensures ScanBack(s[d..], start - d, lim - d) == ScanBack(s, start, lim) - d
    decreases start + 1
  {
    if start >= lim && IsContinuation(s[start]) {
      assert s[d..][start - d] == s[start];
      ScanBackShift(s, d, start - 1, lim);
    }
  }

  /** A leading byte among the four last bytes decides, if its rune reaches the end. */
  lemma LongRune(s: Octets, found: int)
    requires UTF_MAX <= |s| && s[|s| - 1] >= 0x80
    requires found == ScanBack(s, |s| - 2, |s| - UTF_MAX) >= |s| - UTF_MAX
    ensures LastRuneSize(s) == if found + RuneSize(s[found..]) != |s| then 1 else RuneSize(s[found..])
  {
    hide RuneSize;
    hide ScanBack;
  }

  /** When the four last bytes hold no leading byte but the last, no longer rune ends the text. */
  lemma NoLongRune(s: Octets, found: int)
    requires UTF_MAX <= |s| && s[|s| - 1] >= 0x80
    requires found == ScanBack(s, |s| - 2, |s| - UTF_MAX) < |s| - UTF_MAX
    ensures LastRuneSize(s) == 1
  {
  }

  /** Only the last four bytes decide the size of the last rune. */
  lemma LastRuneSizeWindow(s: Octets, w: nat)
    requires UTF_MAX <= w <= |s|
    ensures LastRuneSize(s[|s| - w..]) == LastRuneSize(s)
  {
    hide RuneSize;
    hide ScanBack;
    hide LastRuneSize;
    var d, end := |s| - w, |s|;
    var suffix := s[d..];
    LastByte(s, d);
    if s[end - 1] < 0x80 {
      AsciiLast(s);
      AsciiLast(suffix);
    } else {
      ScanBackShift(s, d, end - 2, end - UTF_MAX);
      var found := ScanBack(s, end - 2, end - UTF_MAX);
      if found >= end - UTF_MAX {
        DropTwice(s, d, found);
        LongRune(s, found);
        LongRune(suffix, found - d);
      } else {
        NoLongRune(s, found);
        NoLongRune(suffix, found - d);
      }
    }
  }

  lemma AsciiLast(s: Octets)
    requires s != [] && s[|s| - 1] < 0x80
    ensures LastRuneSize(s) == 1
  {
  }

  lemma LastByte(s: Octets, d: nat)
    requires d < |s|
    ensures s[d..][|s| - d - 1] == s[|s| - 1]
  {
  }

  lemma DropTwice(s: Octets, d: nat, p: nat)
    requires d <= p <= |s|
    ensures s[d..][p - d..] == s[p..]
  {
  }

  lemma {:induction false} HeadWindow(s: Octets, n: nat, w: nat)
    requires UTF_MAX * n <= w <= |s|
    ensures HeadSize(s[..w], n) == HeadSize(s, n)
    decreases n
  {
    hide StartsWellFormed;
    if n > 0 {
      var k := RuneSize(s);
      RuneSizeWindow(s, w);
      assert s[..w][k..] == s[k..][..w - k];
      HeadWindow(s[k..], n - 1, w - k);
    }
  }

  lemma {:induction false} TailWindow(s: Octets, n: nat, w: nat)
    requires UTF_MAX * n <= w <= |s|
    ensures TailSize(s[|s| - w..], n) == TailSize(s, n)
    decreases n
  {
    hide LastRuneSize;
    if n > 0 {
      var k := LastRuneSize(s);
      LastRuneSizeWindow(s, w);
      var rest := s[..|s| - k];
      assert s[|s| - w..][..w - k] == rest[|rest| - (w - k)..];
      TailWindow(rest, n - 1, w - k);
    }
  }

  /** How much of a stream is read at most, and how much of a long one is read at its end. */
  function ReadLimit(limit: nat): nat { limit * UTF_MAX }

  function TailReadLimit(limit: nat): (r: nat)
    ensures r <= ReadLimit(limit)
  {
    (limit - limit / 2) * UTF_MAX
  }

  lemma {:induction false} RuneCountBound(s: Octets)
    ensures |s| <= UTF_MAX * RuneCount(s)
    decreases |s|
  {
    if s != [] {
      RuneCountBound(s[RuneSize(s)..]);
    }
  }

  /** Bounding the two windows of a long output is bounding the whole of it. */
  lemma WindowedIsWhole(text: Octets, limit: nat)
    requires limit >= 1 && |text| > ReadLimit(limit)
    ensures var head := text[..ReadLimit(limit) - TailReadLimit(limit)];
            var tail := text[|text| - TailReadLimit(limit)..];
            tail != [] && BoundedOutput(head, tail, |text|, limit) == Whole(text, limit)
  {
    hide HeadSize;
    hide TailSize;
    hide Runes;
    hide Sanitize;
    var h, t := ReadLimit(limit) - TailReadLimit(limit), TailReadLimit(limit);
    var head, tail := text[..h], text[|text| - t..];
    RuneCountBound(text);
    HeadWindow(text, limit / 2, h);
    TailWindow(text, limit - limit / 2, t);
    var headSize, tailSize := HeadSize(text, limit / 2), TailSize(text, limit - limit / 2);
    assert head[..headSize] == text[..headSize];
    assert tail[|tail| - tailSize..] == text[|text| - tailSize..];
    assert RuneCount(text) > limit;
    assert |tail| == t > 0;
  }
}

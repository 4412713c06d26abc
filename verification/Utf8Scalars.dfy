/** Unicode scalar values and their UTF-8 form (RFC 3629, section 3), and the
    replacement of every malformed byte that Go's []rune conversion makes. */
module Utf8Scalars {
  import opened Bytes
  import opened Utf8

  predicate IsScalar(cp: int) {
    0 <= cp < 0xD800 || 0xE000 <= cp < 0x110000
  }

  function Encode(cp: int): (s: Octets)
    requires IsScalar(cp)
    ensures s != []
  {
    if cp < 0x80 then [cp]
    else
      var low := 0x80 + cp % 64;
      if cp < 0x800 then [0xC0 + cp / 64, low]
      else
        var middle := 0x80 + cp / 64 % 64;
        if cp < 0x10000 then [0xE0 + cp / 64 / 64, middle, low]
        else [0xF0 + cp / 64 / 64 / 64, 0x80 + cp / 64 / 64 % 64, middle, low]
  }

  /** The scalar value a well-formed sequence stands for. */
  function Decode(s: Octets): int
    requires s != [] && StartsWellFormed(s)
  {
    var w, first: int := Width(s[0]), s[0];
    if w == 1 then first
    else
      var second: int := s[1] - 0x80;
      if w == 2 then (first - 0xC0) * 64 + second
      else
        var third: int := s[2] - 0x80;
        if w == 3 then ((first - 0xE0) * 64 + second) * 64 + third
        else
          var fourth: int := s[3] - 0x80;
          (((first - 0xF0) * 64 + second) * 64 + third) * 64 + fourth
  }

  lemma DigitJoin(high: int, low: int)
    requires 0 <= low < 64
    ensures (high * 64 + low) / 64 == high && (high * 64 + low) % 64 == low
  {
  }

  /** Encoding any scalar value gives a sequence that decodes to it, whatever follows. */
  lemma EncodeDecodes(cp: int, rest: Octets)
    requires IsScalar(cp)
    ensures var s := Encode(cp) + rest;
            StartsWellFormed(s) && RuneSize(s) == |Encode(cp)| && Decode(s) == cp
  {
    var s, code := Encode(cp) + rest, Encode(cp);
    assert forall i :: 0 <= i < |code| ==> s[i] == code[i];
    if cp < 0x80 {
      assert Width(s[0]) == 1;
    } else if cp < 0x800 {
      assert Width(s[0]) == 2;
    } else if cp < 0x10000 {
      assert Width(s[0]) == 3;
    } else {
      assert Width(s[0]) == 4;
    }
  }

  /** Every well-formed sequence is the encoding of one scalar value. */
  lemma DecodeEncodes(s: Octets)
    requires s != [] && StartsWellFormed(s)
    ensures IsScalar(Decode(s)) && Encode(Decode(s)) == s[..RuneSize(s)]
  {
    var cp, w, first: int := Decode(s), Width(s[0]), s[0];
    if w == 1 {
    } else if w == 2 {
      DigitJoin(first - 0xC0, s[1] - 0x80);
    } else if w == 3 {
      DigitJoin((first - 0xE0) * 64 + (s[1] - 0x80), s[2] - 0x80);
      DigitJoin(first - 0xE0, s[1] - 0x80);
    } else {
      DigitJoin(((first - 0xF0) * 64 + (s[1] - 0x80)) * 64 + (s[2] - 0x80), s[3] - 0x80);
      DigitJoin((first - 0xF0) * 64 + (s[1] - 0x80), s[2] - 0x80);
      DigitJoin(first - 0xF0, s[1] - 0x80);
    }
  }

  /** The []rune conversion: malformed bytes become U+FFFD, one each. */
  function CodePoints(s: Octets): (r: seq<int>)
    ensures forall cp :: cp in r ==> IsScalar(cp)
    decreases |s|
  {
    if s == [] then []
    else if StartsWellFormed(s) then
      DecodeEncodes(s);
      [Decode(s)] + CodePoints(s[RuneSize(s)..])
    else [REPLACEMENT] + CodePoints(s[1..])
  }

  function EncodeAll(cps: seq<int>): Octets
    requires forall cp :: cp in cps ==> IsScalar(cp)
  {
    if cps == [] then [] else Encode(cps[0]) + EncodeAll(cps[1..])
  }

  function Sanitize(s: Octets): Octets {
    EncodeAll(CodePoints(s))
  }

  predicate WellFormed(s: Octets)
    decreases |s|
  {
    s == [] || (StartsWellFormed(s) && WellFormed(s[RuneSize(s)..]))
  }

  /** Decoding the encoding of scalar values gives them back, as well-formed text. */
  lemma {:induction false} EncodeAllDecodes(cps: seq<int>)
    requires forall cp :: cp in cps ==> IsScalar(cp)
    ensures CodePoints(EncodeAll(cps)) == cps && WellFormed(EncodeAll(cps)) && RuneCount(EncodeAll(cps)) == |cps|
  {
    if cps != [] {
      var first, rest := Encode(cps[0]), EncodeAll(cps[1..]);
      EncodeDecodes(cps[0], rest);
      EncodeAllDecodes(cps[1..]);
      assert (first + rest)[|first|..] == rest;
    }
  }

  lemma {:induction false} CodePointCount(s: Octets)
    ensures |CodePoints(s)| == RuneCount(s)
    decreases |s|
  {
    if s != [] {
      CodePointCount(s[RuneSize(s)..]);
    }
  }

  /** Sanitizing yields well-formed text with as many runes, and sanitizing again changes nothing. */
  lemma SanitizeWellFormed(s: Octets)
    ensures WellFormed(Sanitize(s)) && RuneCount(Sanitize(s)) == RuneCount(s) && Sanitize(Sanitize(s)) == Sanitize(s)
  {
    EncodeAllDecodes(CodePoints(s));
    CodePointCount(s);
  }

  /** Rune by rune: well-formed sequences stay, any other byte becomes U+FFFD. */
  lemma SanitizeFirst(s: Octets)
    requires s != []
    ensures Sanitize(s) ==
            (if StartsWellFormed(s) then s[..RuneSize(s)] else Encode(REPLACEMENT)) + Sanitize(s[RuneSize(s)..])
  {
    var rest := CodePoints(s[RuneSize(s)..]);
    var first := if StartsWellFormed(s) then Decode(s) else REPLACEMENT;
    assert CodePoints(s) == [first] + rest;
    assert ([first] + rest)[1..] == rest;
    if StartsWellFormed(s) {
      DecodeEncodes(s);
    }
  }

  lemma NothingSanitized()
    ensures Sanitize([]) == []
  {
    assert CodePoints([]) == [];
  }

  lemma {:induction false} WellFormedKept(s: Octets)
    requires WellFormed(s)
    ensures Sanitize(s) == s
    decreases |s|
  {
    hide RuneSize;
    hide Sanitize;
    hide StartsWellFormed;
    hide Encode;
    if s == [] {
      NothingSanitized();
    } else {
      SanitizeFirst(s);
      WellFormedKept(s[RuneSize(s)..]);
    }
  }

  /** Exactly the well-formed texts are left as they are. */
  lemma SanitizeUnchangedIff(s: Octets)
    ensures Sanitize(s) == s <==> WellFormed(s)
  {
    if WellFormed(s) {
      WellFormedKept(s);
    } else {
      SanitizeWellFormed(s);
    }
  }

  /** A byte that starts no well-formed sequence is shown as U+FFFD, in three bytes. */
  lemma MalformedByte(b: byte)
    requires b >= 0x80
    ensures Sanitize([b]) == [0xEF, 0xBF, 0xBD]
  {
    SanitizeFirst([b]);
    NothingSanitized();
    assert [b][1..] == [];
  }
}

/** Byte strings, as the Go sources see them: sequences of eight-bit values. */
module Bytes {

  type byte = x: int | 0 <= x < 256

  type Octets = seq<byte>

  const LF: byte := 10
  const CR: byte := 13

  /** All parts, one after the other. */
  function Concat(parts: seq<Octets>): Octets {
    if parts == [] then [] else parts[0] + Concat(parts[1..])
  }

  lemma {:induction false} ConcatSplit(a: seq<Octets>, b: seq<Octets>)
    ensures Concat(a + b) == Concat(a) + Concat(b)
  {
    if a == [] {
      assert a + b == b;
    } else {
      assert (a + b)[1..] == a[1..] + b;
      ConcatSplit(a[1..], b);
    }
  }

  lemma ConcatLast(a: seq<Octets>, last: Octets)
    ensures Concat(a + [last]) == Concat(a) + last
  {
    ConcatSplit(a, [last]);
  }

  lemma Assoc(a: Octets, b: Octets, c: Octets)
    ensures a + b + c == a + (b + c)
  {
  }
}

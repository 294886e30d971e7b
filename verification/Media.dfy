// Shared vocabulary of the media switch: octets, RTP counters, packet kinds.
//
// RTP timestamps are 32-bit and sequence numbers 16-bit, both modular
// (section 5.1 of RFC 3550). `Wrap32` and `Wrap16` are Go's unsigned
// conversions, so `uint32` subtraction is `Wrap32(a - b)`.
module Media {

  type byte = b: int | 0 <= b < 0x100

  const TWO16 := 0x1_0000
  const TWO32 := 0x1_0000_0000

  type u16 = n: int | 0 <= n < TWO16
  type u32 = n: int | 0 <= n < TWO32

  function Wrap16(n: int): u16 {
    n % TWO16
  }

  function Wrap32(n: int): u32 {
    n % TWO32
  }

  /** Adding a wrapped number is adding the number. */
  lemma WrapAdd(a: int, b: int)
    ensures Wrap32(Wrap32(a) + b) == Wrap32(a + b)
  {
  }

  lemma WrapSub(a: int, b: int)
    ensures Wrap32(a - Wrap32(b)) == Wrap32(a - b)
  {
  }

  /** Within one turn of the clock, wrapping loses nothing. */
  lemma WrapInjective(a: int, b: int)
    requires -TWO32 < a - b < TWO32
    ensures Wrap32(a) == Wrap32(b) <==> a == b
  {
  }

  datatype Option<+T> = None | Some(value: T)

  datatype Kind = Video | Audio

  lemma ConcatLast<T>(a: seq<T>, b: seq<T>)
    requires b != []
    ensures (a + b)[..|a + b| - 1] == a + b[..|b| - 1]
    ensures (a + b)[|a + b| - 1] == b[|b| - 1]
  {
  }
}

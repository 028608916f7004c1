/** What links and the dispatcher share: how long a packet occupies a link or a budget, in
    whole nanoseconds, and how a packet answers congestion. */
module Serialization {
  import opened Basics

  datatype ECNState = NotCapable | Capable | AlreadyMarked

  const BITS_NANOSECONDS_PER_BYTE: nat := 8_000_000_000
  const WORD: nat := 0x1_0000_0000_0000_0000

  /** The exact time of `bytes` at `rate` bits per second, rounded up. */
  function Duration(bytes: nat, rate: nat): nat
    requires rate > 0
  {
    (bytes * BITS_NANOSECONDS_PER_BYTE + rate - 1) / rate
  }

  lemma QuotientFacts(a: nat, d: nat)
    requires d > 0
    ensures d * (a / d) <= a < d * (a / d) + d
  {
  }

  /** The least whole number of nanoseconds in which `rate` carries the packet. */
  lemma DurationExact(bytes: nat, rate: nat)
    requires rate > 0
    ensures var d := Duration(bytes, rate);
      && bytes * BITS_NANOSECONDS_PER_BYTE <= rate * d
      && (d > 0 ==> rate * (d - 1) < bytes * BITS_NANOSECONDS_PER_BYTE)
  {
    var a := bytes * BITS_NANOSECONDS_PER_BYTE + rate - 1;
    QuotientFacts(a, rate);
    var d := a / rate;
    assert rate * (d - 1) == rate * d - rate;
  }

  lemma Monotone(a: int, b: int, factor: int)
    ensures a <= b && factor >= 0 ==> factor * a <= factor * b
    ensures a < b && factor > 0 ==> factor * a < factor * b
  {
  }

  lemma DivisionUnique(a: nat, d: nat, q: nat, r: nat)
    requires d > 0 && a == d * q + r && r < d
    ensures a / d == q && a % d == r
  {
    QuotientFacts(a, d);
    var p := a / d;
    Monotone(p + 1, q, d);
    Monotone(q + 1, p, d);
  }

  /** Rounding up from quotient and remainder. */
  lemma RoundedUp(bytes: nat, rate: nat, q: nat, r: nat)
    requires rate > 0 && bytes * BITS_NANOSECONDS_PER_BYTE == rate * q + r && r < rate
    ensures Duration(bytes, rate) == if r > 0 then q + 1 else q
  {
    if r > 0 {
      assert rate * (q + 1) == rate * q + rate;
      DivisionUnique(bytes * BITS_NANOSECONDS_PER_BYTE + rate - 1, rate, q + 1, r - 1);
    } else {
      DivisionUnique(bytes * BITS_NANOSECONDS_PER_BYTE + rate - 1, rate, q, rate - 1);
    }
  }

  /** Go's `bits.Mul64`: the double word of a product. */
  method Mul64(x: nat, y: nat) returns (hi: nat, lo: nat)
    requires x < WORD && y < WORD
    ensures hi * WORD + lo == x * y && lo < WORD
  {
    hi, lo := x * y / WORD, x * y % WORD;
    QuotientFacts(x * y, WORD);
  }

  /** Go's `bits.Div64`: the quotient of a double word, which must fit in one word. */
  method Div64(hi: nat, lo: nat, y: nat) returns (quotient: nat, remainder: nat)
    requires hi < y < WORD && lo < WORD
    ensures hi * WORD + lo == y * quotient + remainder && remainder < y && quotient < WORD
  {
    var a := hi * WORD + lo;
    quotient, remainder := a / y, a % y;
    QuotientFacts(a, y);
    Monotone(WORD, quotient, y);
    Monotone(hi + 1, y, WORD);
  }

  /** Word arithmetic computes the exact duration, and refuses exactly those that do not fit
      a signed 64-bit duration. */
  method SerializationDuration(sizeBytes: nat, bitsPerSecond: nat) returns (r: Option<nat>)
    requires sizeBytes <= MAX_INT64 && 0 < bitsPerSecond <= MAX_INT64
    ensures r == if Duration(sizeBytes, bitsPerSecond) <= MAX_INT64 then Some(Duration(sizeBytes, bitsPerSecond)) else None
  {
    var hi, lo := Mul64(sizeBytes, BITS_NANOSECONDS_PER_BYTE);
    if hi >= bitsPerSecond {
      TooLong(sizeBytes, bitsPerSecond, hi, lo);
      return None;
    }
    var nanoseconds, remainder := Div64(hi, lo, bitsPerSecond);
    RoundedUp(sizeBytes, bitsPerSecond, nanoseconds, remainder);
    if remainder > 0 {
      if nanoseconds == MAX_UINT64 {
        return None;
      }
      nanoseconds := nanoseconds + 1;
    }
    if nanoseconds > MAX_INT64 {
      return None;
    }
    return Some(nanoseconds);
  }

  lemma TooLong(bytes: nat, rate: nat, hi: nat, lo: nat)
    requires 0 < rate <= hi && hi * WORD + lo == bytes * BITS_NANOSECONDS_PER_BYTE
    ensures Duration(bytes, rate) > MAX_INT64
  {
    DurationExact(bytes, rate);
    var d := Duration(bytes, rate);
    Monotone(d, MAX_INT64, rate);
    Monotone(rate, hi, WORD);
    Monotone(MAX_INT64, WORD, rate);
  }
}

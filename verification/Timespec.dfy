/**
 Time arithmetic of shared/timespec-util.h.  Integers are unbounded here, so the
 results speak of the cases in which the C code does not overflow 64 bits;
 division and remainder truncate toward zero, as in C.
 */
module Timespec {
  import opened Numbers

  const NSEC_PER_SEC: int := 1_000_000_000

  /** C's integer division. */
  function CDiv(a: int, b: int): int
    requires b > 0
  {
    if a >= 0 then a / b else 0 - (0 - a) / b
  }

  /** C's remainder. */
  function CMod(a: int, b: int): int
    requires b > 0
  {
    a - CDiv(a, b) * b
  }

  lemma CModSign(a: int, b: int)
    requires b > 0
    ensures -b < CMod(a, b) < b && (a >= 0 ==> CMod(a, b) >= 0) && (a <= 0 ==> CMod(a, b) <= 0)
    ensures CMod(a, b) == 0 <==> a % b == 0
  {
    if a < 0 {
      var n := 0 - a;
      assert n == (n / b) * b + n % b;
      assert CMod(a, b) == 0 - n % b;
      assert a % b == 0 <==> n % b == 0 by {
        NegatedRemainder(n, b);
      }
    }
  }

  lemma NegatedRemainder(n: int, b: int)
    requires b > 0 && n >= 0
    ensures (0 - n) % b == 0 <==> n % b == 0
  {
    var m := 0 - n;
    var q := n / b;
    var r := m / b;
    assert n == q * b + n % b && m == r * b + m % b;
    var k := q + r;
    assert k * b + (n % b + m % b) == 0;
    assert k >= 1 ==> k * b >= b;
    assert k <= -2 ==> k * b <= -2 * b;
    assert k == -1 ==> k * b == -b;
  }

  datatype Time = Time(sec: int, nsec: int)

  predicate Normalized(t: Time) { 0 <= t.nsec < NSEC_PER_SEC }

  function ToNsec(t: Time): int { t.sec * NSEC_PER_SEC + t.nsec }

  function ToMsec(t: Time): int { t.sec * 1000 + CDiv(t.nsec, 1_000_000) }

  function FromNsec(b: int): Time { Time(CDiv(b, NSEC_PER_SEC), CMod(b, NSEC_PER_SEC)) }

  /** The struct behind a timespec pointer; out and in parameters may be the same object. */
  class Cell {
    var sec: int
    var nsec: int

    ghost function Value(): Time
      reads this
    {
      Time(sec, nsec)
    }
  }

  method Sub(r: Cell, a: Cell, b: Cell)
    modifies r
    ensures old(Normalized(a.Value()) && Normalized(b.Value())) ==> Normalized(r.Value())
    ensures ToNsec(r.Value()) == old(ToNsec(a.Value()) - ToNsec(b.Value()))
  {
    r.sec := a.sec - b.sec;
    r.nsec := a.nsec - b.nsec;
    if r.nsec < 0 {
      r.sec := r.sec - 1;
      r.nsec := r.nsec + NSEC_PER_SEC;
    }
  }

  method AddNsec(r: Cell, a: Cell, b: int)
    modifies r
    ensures old(Normalized(a.Value())) ==> Normalized(r.Value())
    ensures ToNsec(r.Value()) == old(ToNsec(a.Value())) + b
  {
    CModSign(b, NSEC_PER_SEC);
    r.sec := a.sec + CDiv(b, NSEC_PER_SEC);
    r.nsec := a.nsec + CMod(b, NSEC_PER_SEC);
    if r.nsec >= NSEC_PER_SEC {
      r.sec := r.sec + 1;
      r.nsec := r.nsec - NSEC_PER_SEC;
    } else if r.nsec < 0 {
      r.sec := r.sec - 1;
      r.nsec := r.nsec + NSEC_PER_SEC;
    }
  }

  /** The wire form: the high and the low 32 bits of the seconds, and the nanoseconds. */
  datatype Wire = Wire(hi: int, lo: int, nsec: int)

  predicate IsUint32(n: int) { 0 <= n < TWO_32 }

  function ToWire(t: Time): Wire { Wire(t.sec / TWO_32, t.sec % TWO_32, t.nsec) }

  function FromWire(w: Wire): Time { Time(w.hi * TWO_32 + w.lo, w.nsec) }

  method ToProto(a: Cell) returns (w: Wire)
    requires 0 <= a.sec < TWO_32 * TWO_32 && Normalized(a.Value())
    ensures IsUint32(w.hi) && IsUint32(w.lo) && IsUint32(w.nsec)
    ensures FromWire(w) == a.Value()
  {
    w := Wire(a.sec / TWO_32, a.sec % TWO_32, a.nsec);
  }

  method FromProto(a: Cell, w: Wire)
    requires IsUint32(w.hi) && IsUint32(w.lo) && IsUint32(w.nsec)
    modifies a
    ensures ToWire(a.Value()) == w
  {
    a.sec := w.hi * TWO_32 + w.lo;
    a.nsec := w.nsec;
  }

  /** Splitting and joining undo each other, so the two methods do, in either order. */
  lemma ProtoRoundTrip(t: Time, w: Wire)
    requires IsUint32(w.lo)
    ensures FromWire(ToWire(t)) == t
    ensures ToWire(FromWire(w)) == w
    ensures FromWire(w) == t <==> ToWire(t) == w
  {
    assert (w.hi * TWO_32 + w.lo) / TWO_32 == w.hi;
  }

  /** A normalized time is determined by its nanosecond count, so sums and differences have one normalized form. */
  lemma NormalizedIsCanonical(s: Time, t: Time)
    requires Normalized(s) && Normalized(t) && ToNsec(s) == ToNsec(t)
    ensures s == t
  {
    assert s.nsec - t.nsec == (t.sec - s.sec) * NSEC_PER_SEC;
  }

  /**
   Converting from nanoseconds and back is exact for every count, but the result
   is normalized only for counts that are not negative or are whole seconds:
   truncation leaves a negative nanosecond part otherwise.
   */
  lemma FromNsecExact(b: int)
    ensures ToNsec(FromNsec(b)) == b
    ensures Normalized(FromNsec(b)) <==> b >= 0 || b % NSEC_PER_SEC == 0
  {
    CModSign(b, NSEC_PER_SEC);
  }

  /** Milliseconds round down, for seconds of either sign. */
  lemma ToMsecIsFloor(t: Time)
    requires Normalized(t)
    ensures ToMsec(t) * 1_000_000 <= ToNsec(t) < (ToMsec(t) + 1) * 1_000_000
  {
  }
}

/**
  packages/shared/src/ulid.ts: the monotonic ULID generator, down to the bit
  buffer of the base-32 encoder and the in-place 80-bit increment.

  Shifts and masks are defined on unbounded numbers, one bit at a time; the
  loop invariant keeps the buffer below 2^12, so the 32-bit operators of the
  source agree with them.
 */
module Ulid {
  import opened StringOrder

  const TIME_LEN := 10
  const RAND_LEN := 16
  const RAND_BYTES := 10

  type Byte = x: int | 0 <= x < 256

  type Digit = x: int | 0 <= x < 32

  /** Crockford's alphabet: the digits, then the capital letters without I, L, O and U. */
  function Symbol(d: Digit): char {
    if d < 10 then ('0' as int + d) as char
    else if d < 18 then ('A' as int + d - 10) as char
    else if d < 20 then ('J' as int + d - 18) as char
    else if d < 22 then ('M' as int + d - 20) as char
    else if d < 27 then ('P' as int + d - 22) as char
    else ('V' as int + d - 27) as char
  }

  // ----- numbers and digits -------------------------------------------------

  function Pow(b: nat, e: nat): (p: nat)
    ensures b > 0 ==> p > 0
  {
    if e == 0 then 1 else MulPos(b, Pow(b, e - 1)); b * Pow(b, e - 1)
  }

  lemma MulPos(a: nat, b: nat)
    ensures a * b >= 0
    ensures a > 0 && b > 0 ==> a * b > 0
  {
  }

  /** The big-endian number the first `n` bytes stand for. */
  function ValueOf(bytes: seq<Byte>, n: nat): nat
    requires n <= |bytes|
  {
    if n == 0 then 0 else ValueOf(bytes, n - 1) * 256 + bytes[n - 1]
  }

  function Value(bytes: seq<Byte>): nat {
    ValueOf(bytes, |bytes|)
  }

  /** The last `len` base-32 digits of `n`, most significant first. */
  function Digits(n: nat, len: nat): (ds: seq<Digit>)
    ensures |ds| == len
  {
    if len == 0 then [] else Digits(n / 32, len - 1) + [n % 32]
  }

  function DigitValue(ds: seq<Digit>, n: nat): nat
    requires n <= |ds|
  {
    if n == 0 then 0 else DigitValue(ds, n - 1) * 32 + ds[n - 1]
  }

  lemma {:induction false} DigitsOfValue(ds: seq<Digit>, n: nat)
    requires n <= |ds|
    ensures Digits(DigitValue(ds, n), n) == ds[..n]
  {
    if n > 0 {
      DigitsOfValue(ds, n - 1);
      assert ds[..n] == ds[..n - 1] + [ds[n - 1]];
    }
  }

  lemma {:induction false} DigitValuePrefix(ds: seq<Digit>, es: seq<Digit>, n: nat)
    requires n <= |ds| && n <= |es| && forall i :: 0 <= i < n ==> ds[i] == es[i]
    ensures DigitValue(ds, n) == DigitValue(es, n)
  {
    if n > 0 { DigitValuePrefix(ds, es, n - 1); }
  }

  function Text(ds: seq<Digit>): (s: string)
    ensures |s| == |ds|
  {
    seq(|ds|, i requires 0 <= i < |ds| => Symbol(ds[i]))
  }

  // ----- the encoders -------------------------------------------------------

  datatype Result = Ok(text: string) | RangeError | Overflowed

  method EncodeTime(ms: int) returns (r: Result)
    ensures ms < 0 ==> r == RangeError
    ensures ms >= 0 ==> r == Ok(Text(Digits(ms, TIME_LEN)))
  {
    if ms < 0 { return RangeError; }
    var rem: nat := ms;
    var out := "";
    var i := TIME_LEN - 1;
    ghost var done: seq<Digit> := [];
    while i >= 0
      invariant -1 <= i < TIME_LEN && rem >= 0
      invariant Digits(ms, TIME_LEN) == Digits(rem, i + 1) + done
      invariant out == Text(done)
    {
      var mod := rem % 32;
      out := [Symbol(mod)] + out;
      assert Text([mod] + done) == [Symbol(mod)] + Text(done);
      assert Digits(rem, i + 1) + done == Digits(rem / 32, i) + ([mod] + done);
      done := [mod] + done;
      assert (rem - mod) / 32 == rem / 32;
      rem := (rem - mod) / 32;
      i := i - 1;
    }
    assert Digits(rem, 0) + done == done;
    r := Ok(out);
  }

  /** The bits left over when `n` bytes are cut into groups of five. */
  function Leftover(n: nat): nat {
    8 * n % 5
  }

  /**
    The bit-stream encoder, for any number of bytes: it emits the base-32 digits
    of the big-endian number without its last `Leftover` bits.
   */
  method EncodeRandom(bytes: seq<Byte>) returns (out: string)
    ensures out == Text(Digits(Shr(Value(bytes), Leftover(|bytes|)), 8 * |bytes| / 5))
    ensures |bytes| == RAND_BYTES ==> out == RandomText(bytes)
  {
    out := "";
    var bitBuffer: nat, bitCount: nat := 0, 0;
    ghost var ds: seq<Digit>, v: nat := [], 0;
    for i := 0 to |bytes|
      invariant 8 * i == 5 * |ds| + bitCount && bitCount < 5
      invariant v == ValueOf(bytes, i) && Buffered(out, ds, bitCount, bitBuffer, v)
    {
      ByteIn(out, ds, bitCount, bitBuffer, v, bytes[i]);
      v := v * 256 + bytes[i];
      bitBuffer := bitBuffer * 256 + bytes[i];
      bitCount := bitCount + 8;
      while bitCount >= 5
        invariant 8 * (i + 1) == 5 * |ds| + bitCount && bitCount <= 12
        invariant Buffered(out, ds, bitCount, bitBuffer, v)
      {
        DigitOut(out, ds, bitCount, bitBuffer, v);
        bitCount := bitCount - 5;
        var idx: Digit := Shr(bitBuffer, bitCount) % 32;
        out := out + [Symbol(idx)];
        bitBuffer := LowBits(bitBuffer, bitCount);
        ds := ds + [idx];
      }
    }
    AllRead(out, ds, bitCount, bitBuffer, bytes);
  }

  lemma AllRead(out: string, ds: seq<Digit>, c: nat, buffer: nat, bytes: seq<Byte>)
    requires Buffered(out, ds, c, buffer, Value(bytes)) && 8 * |bytes| == 5 * |ds| + c && c < 5
    ensures out == Text(Digits(Shr(Value(bytes), Leftover(|bytes|)), 8 * |bytes| / 5))
    ensures |bytes| == RAND_BYTES ==> out == RandomText(bytes)
  {
    DigitsRead(out, ds, c, buffer, Value(bytes));
    FiveBitGroups(8 * |bytes|, |ds|, c);
  }

  lemma DigitsRead(out: string, ds: seq<Digit>, c: nat, buffer: nat, v: nat)
    requires Buffered(out, ds, c, buffer, v)
    ensures out == Text(Digits(Shr(v, c), |ds|))
  {
    ShiftedBack(DigitValue(ds, |ds|), c, buffer);
    DigitsOfValue(ds, |ds|);
    assert ds[..|ds|] == ds;
  }

  lemma FiveBitGroups(bits: nat, groups: nat, c: nat)
    requires bits == 5 * groups + c && c < 5
    ensures bits % 5 == c && bits / 5 == groups
  {
  }

  /** `out` spells the digits `ds`, and with the `c` buffered bits they make up the number `v` read so far. */
  ghost predicate Buffered(out: string, ds: seq<Digit>, c: nat, buffer: nat, v: nat) {
    out == Text(ds) && buffer < Shl(1, c) && Shl(DigitValue(ds, |ds|), c) + buffer == v
  }

  /** `v` shifted left by `c` bits. */
  function Shl(v: nat, c: nat): nat {
    if c == 0 then v else 2 * Shl(v, c - 1)
  }

  lemma ShlStep(v: nat, c: nat)
    ensures Shl(v, c + 5) == 32 * Shl(v, c)
    ensures Shl(v, c + 8) == 256 * Shl(v, c)
  {
    assert Shl(v, c + 1) == 2 * Shl(v, c) && Shl(v, c + 2) == 4 * Shl(v, c) && Shl(v, c + 3) == 8 * Shl(v, c);
    assert Shl(v, c + 4) == 16 * Shl(v, c) && Shl(v, c + 5) == 32 * Shl(v, c);
    assert Shl(v, c + 6) == 64 * Shl(v, c) && Shl(v, c + 7) == 128 * Shl(v, c);
  }

  lemma {:induction false} ShlLinear(v: nat, w: nat, c: nat)
    ensures Shl(32 * v + w, c) == 32 * Shl(v, c) + Shl(w, c)
  {
    if c > 0 { ShlLinear(v, w, c - 1); }
  }

  /** `v` shifted right by `c` bits. */
  function Shr(v: nat, c: nat): nat {
    if c == 0 then v else Shr(v / 2, c - 1)
  }

  /** The low `c` bits of `v`: the mask with `(1 << c) - 1`. */
  function LowBits(v: nat, c: nat): nat {
    if c == 0 then 0 else 2 * LowBits(v / 2, c - 1) + v % 2
  }

  lemma {:induction false} CutBits(v: nat, c: nat)
    ensures v == Shl(Shr(v, c), c) + LowBits(v, c) && LowBits(v, c) < Shl(1, c)
  {
    if c > 0 { CutBits(v / 2, c - 1); }
  }

  lemma {:induction false} ShiftedBack(v: nat, c: nat, low: nat)
    requires low < Shl(1, c)
    ensures Shr(Shl(v, c) + low, c) == v
  {
    if c > 0 {
      ShiftedBack(v, c - 1, low / 2);
      assert (Shl(v, c) + low) / 2 == Shl(v, c - 1) + low / 2;
    }
  }

  lemma {:induction false} ShlMonotone(v: nat, w: nat, c: nat)
    requires v <= w
    ensures Shl(v, c) <= Shl(w, c)
  {
    if c > 0 { ShlMonotone(v, w, c - 1); }
  }

  lemma {:induction false} Shl32(c: nat)
    ensures Shl(32, c) == 32 * Shl(1, c)
  {
    if c > 0 { Shl32(c - 1); }
  }

  /** Shifting a byte into the buffer. */
  lemma ByteIn(out: string, ds: seq<Digit>, c: nat, buffer: nat, v: nat, b: Byte)
    requires Buffered(out, ds, c, buffer, v)
    ensures Buffered(out, ds, c + 8, buffer * 256 + b, v * 256 + b)
  {
    ShlStep(DigitValue(ds, |ds|), c);
    ShlStep(1, c);
  }

  /** Taking the top five bits out of the buffer. */
  lemma DigitOut(out: string, ds: seq<Digit>, c: nat, buffer: nat, v: nat)
    requires c >= 5 && Buffered(out, ds, c, buffer, v)
    ensures var idx: Digit := Shr(buffer, c - 5) % 32;
      Buffered(out + [Symbol(idx)], ds + [idx], c - 5, LowBits(buffer, c - 5), v)
  {
    TopBits(buffer, c - 5);
    CutBits(buffer, c - 5);
    var idx: Digit := Shr(buffer, c - 5);
    assert idx % 32 == idx;
    ShlLinear(DigitValue(ds, |ds|), idx, c - 5);
    ShlStep(DigitValue(ds, |ds|), c - 5);
    DigitSnoc(ds, idx);
  }

  lemma TopBits(buffer: nat, c: nat)
    requires buffer < Shl(1, c + 5)
    ensures Shr(buffer, c) < 32
  {
    ShlStep(1, c);
    CutBits(buffer, c);
    Shl32(c);
    if Shr(buffer, c) >= 32 { ShlMonotone(32, Shr(buffer, c), c); }
  }

  lemma DigitSnoc(ds: seq<Digit>, d: Digit)
    ensures Text(ds + [d]) == Text(ds) + [Symbol(d)]
    ensures DigitValue(ds + [d], |ds| + 1) == DigitValue(ds, |ds|) * 32 + d
  {
    TextSnoc(ds, d);
    DigitValuePrefix(ds + [d], ds, |ds|);
  }

  lemma TextSnoc(ds: seq<Digit>, d: Digit)
    ensures Text(ds + [d]) == Text(ds) + [Symbol(d)]
  {
  }

  // ----- order --------------------------------------------------------------

  lemma {:induction false} LessHead(a: string, b: string, c: string, d: string)
    requires |a| == |c| && Less(a, c)
    ensures Less(a + b, c + d)
  {
    if a[0] == c[0] {
      LessHead(a[1..], b, c[1..], d);
      assert (a + b)[1..] == a[1..] + b && (c + d)[1..] == c[1..] + d;
    }
  }

  lemma {:induction false} LessTail(a: string, b: string, d: string)
    requires Less(b, d)
    ensures Less(a + b, a + d)
  {
    if a == [] {
      assert a + b == b && a + d == d;
    } else {
      LessTail(a[1..], b, d);
      assert (a + b)[1..] == a[1..] + b && (a + d)[1..] == a[1..] + d;
    }
  }

  lemma SymbolsAscend(i: Digit, j: Digit)
    requires i < j
    ensures Symbol(i) < Symbol(j)
  {
  }

  /** Encoded numbers of one width compare as the numbers do. */
  lemma {:induction false} DigitsOrder(n: nat, m: nat, len: nat)
    requires n < m < Pow(32, len)
    ensures Less(Text(Digits(n, len)), Text(Digits(m, len)))
  {
    var n', m' := n / 32, m / 32;
    DigitSnoc(Digits(n', len - 1), n % 32);
    DigitSnoc(Digits(m', len - 1), m % 32);
    if n' < m' {
      DigitsOrder(n', m', len - 1);
      LessHead(Text(Digits(n', len - 1)), [Symbol(n % 32)], Text(Digits(m', len - 1)), [Symbol(m % 32)]);
    } else {
      SymbolsAscend(n % 32, m % 32);
      LessTail(Text(Digits(n', len - 1)), [Symbol(n % 32)], [Symbol(m % 32)]);
    }
  }

  lemma {:induction false} ValueBound(bytes: seq<Byte>, n: nat)
    requires n <= |bytes|
    ensures ValueOf(bytes, n) < Pow(256, n)
  {
    if n > 0 { ValueBound(bytes, n - 1); }
  }

  lemma RandomFits(bytes: seq<Byte>)
    requires |bytes| == RAND_BYTES
    ensures Value(bytes) < Pow(32, RAND_LEN)
  {
    ValueBound(bytes, |bytes|);
    assert Pow(256, 5) == 0x100_0000_0000;
    assert Pow(256, 10) == 0x1_0000_0000_0000_0000_0000;
    assert Pow(32, 8) == 0x100_0000_0000;
    assert Pow(32, 16) == 0x1_0000_0000_0000_0000_0000;
  }

  /** Ten bytes encode to sixteen characters that determine them and compare as they do. */
  function RandomText(bytes: seq<Byte>): string {
    Text(Digits(Value(bytes), RAND_LEN))
  }

  lemma RandomTextOrder(a: seq<Byte>, b: seq<Byte>)
    requires |a| == |b| == RAND_BYTES && Value(a) < Value(b)
    ensures Less(RandomText(a), RandomText(b))
  {
    RandomFits(b);
    DigitsOrder(Value(a), Value(b), RAND_LEN);
  }

  lemma {:induction false} ValueInjective(a: seq<Byte>, b: seq<Byte>, n: nat)
    requires n <= |a| && n <= |b| && ValueOf(a, n) == ValueOf(b, n)
    ensures a[..n] == b[..n]
  {
    if n > 0 {
      ValueInjective(a, b, n - 1);
      assert a[..n] == a[..n - 1] + [a[n - 1]] && b[..n] == b[..n - 1] + [b[n - 1]];
    }
  }

  lemma RandomTextInjective(a: seq<Byte>, b: seq<Byte>)
    requires |a| == |b| == RAND_BYTES && RandomText(a) == RandomText(b)
    ensures a == b
  {
    LessOrder(RandomText(a), RandomText(a), RandomText(a));
    if Value(a) < Value(b) { RandomTextOrder(a, b); }
    if Value(b) < Value(a) { RandomTextOrder(b, a); }
    ValueInjective(a, b, |a|);
    assert a[..|a|] == a && b[..|b|] == b;
  }

  // ----- the increment ------------------------------------------------------

  predicate AllOnes(bytes: seq<Byte>) {
    forall i :: 0 <= i < |bytes| ==> bytes[i] == 0xff
  }

  predicate AllZero(bytes: seq<Byte>) {
    forall i :: 0 <= i < |bytes| ==> bytes[i] == 0
  }

  lemma {:induction false} OnesAndZeros(bytes: seq<Byte>, n: nat)
    requires n <= |bytes|
    ensures AllZero(bytes[..n]) ==> ValueOf(bytes, n) == 0
    ensures AllOnes(bytes[..n]) <==> ValueOf(bytes, n) == Pow(256, n) - 1
  {
    if n > 0 {
      OnesAndZeros(bytes, n - 1);
      ValueBound(bytes, n - 1);
      assert bytes[..n] == bytes[..n - 1] + [bytes[n - 1]];
    }
  }

  /** The last position among the first `n` that does not hold 0xff, or -1. */
  function CarryStop(bytes: seq<Byte>, n: nat): (i: int)
    requires n <= |bytes|
    ensures -1 <= i < n && (i >= 0 ==> bytes[i] < 0xff)
    ensures forall k :: i < k < n ==> bytes[k] == 0xff
  {
    if n == 0 then -1 else if bytes[n - 1] == 0xff then CarryStop(bytes, n - 1) else n - 1
  }

  /** The bytes one up: 0xff wraps to 0 and carries to the left. */
  function Increment(bytes: seq<Byte>): (r: seq<Byte>)
    ensures |r| == |bytes|
  {
    var i := CarryStop(bytes, |bytes|);
    seq(|bytes|, k requires 0 <= k < |bytes| => if k < i then bytes[k] else if k == i then bytes[i] + 1 else 0)
  }

  lemma {:induction false} CarryAdds(was: seq<Byte>, now: seq<Byte>, i: nat, n: nat)
    requires |was| == |now| && i < n <= |was| && was[i] < 0xff && now[i] == was[i] + 1
    requires forall k :: 0 <= k < i ==> now[k] == was[k]
    requires forall k :: i < k < |was| ==> was[k] == 0xff && now[k] == 0
    ensures ValueOf(now, n) == ValueOf(was, n) + 1
  {
    if n == i + 1 {
      SamePrefixValue(was, now, i);
    } else {
      CarryAdds(was, now, i, n - 1);
    }
  }

  lemma {:induction false} SamePrefixValue(a: seq<Byte>, b: seq<Byte>, n: nat)
    requires n <= |a| && n <= |b| && forall k :: 0 <= k < n ==> a[k] == b[k]
    ensures ValueOf(a, n) == ValueOf(b, n)
  {
    if n > 0 { SamePrefixValue(a, b, n - 1); }
  }

  /** The increment adds one, except that all ones wrap to all zeros. */
  lemma IncrementIs(bytes: seq<Byte>)
    ensures !AllOnes(bytes) ==> Value(Increment(bytes)) == Value(bytes) + 1
    ensures AllOnes(bytes) ==> AllZero(Increment(bytes))
    ensures AllOnes(bytes) <==> CarryStop(bytes, |bytes|) == -1
  {
    var i := CarryStop(bytes, |bytes|);
    if i >= 0 { CarryAdds(bytes, Increment(bytes), i, |bytes|); }
  }

  /** Carries from the right; on all ones it leaves all zeros behind and reports the overflow. */
  method IncrementBytes(bytes: array<Byte>) returns (overflow: bool)
    modifies bytes
    ensures bytes[..] == Increment(old(bytes[..]))
    ensures overflow <==> AllOnes(old(bytes[..]))
    ensures !overflow ==> Value(bytes[..]) == Value(old(bytes[..])) + 1
  {
    var i := bytes.Length - 1;
    ghost var was := bytes[..];
    IncrementIs(was);
    while i >= 0
      invariant -1 <= i < bytes.Length
      invariant forall k :: 0 <= k <= i ==> bytes[k] == was[k]
      invariant forall k :: i < k < bytes.Length ==> bytes[k] == 0
      invariant CarryStop(was, |was|) == CarryStop(was, i + 1)
    {
      var v := bytes[i];
      if v == 0xff {
        bytes[i] := 0;
        i := i - 1;
      } else {
        bytes[i] := v + 1;
        assert bytes[..] == Increment(was);
        return false;
      }
    }
    assert bytes[..] == Increment(was);
    return true;
  }

  // ----- the generator ------------------------------------------------------

  datatype Gen = Gen(lastTime: int, lastRand: seq<Byte>)

  /** A call's timestamp and the random bytes it would draw. */
  datatype Call = Call(now: int, random: seq<Byte>)

  function Advance(g: Gen, c: Call): Gen {
    if c.now == g.lastTime then g.(lastRand := Increment(g.lastRand)) else Gen(c.now, c.random)
  }

  function Output(g: Gen, c: Call): Result {
    if c.now == g.lastTime && AllOnes(g.lastRand) then Overflowed
    else if c.now < 0 then RangeError
    else Ok(Text(Digits(c.now, TIME_LEN)) + RandomText(Advance(g, c).lastRand))
  }

  class Generator {
    var lastTime: int
    const lastRand: array<Byte>

    constructor ()
      ensures fresh(lastRand) && Ready() && Current() == Gen(-1, seq(RAND_BYTES, _ => 0))
    {
      lastTime := -1;
      lastRand := new Byte[RAND_BYTES](_ => 0);
    }

    predicate Ready() {
      lastRand.Length == RAND_BYTES
    }

    ghost function Current(): Gen
      reads this, lastRand
    {
      Gen(lastTime, lastRand[..])
    }

    /** `lastRand.set(random)`. */
    method StoreRandom(random: seq<Byte>)
      requires Ready() && |random| == RAND_BYTES
      modifies lastRand
      ensures lastRand[..] == random
    {
      for i := 0 to RAND_BYTES
        invariant lastRand[..i] == random[..i]
      {
        lastRand[i] := random[i];
      }
      assert lastRand[..] == random;
    }

    method Next(now: int, random: seq<Byte>) returns (r: Result)
      requires Ready() && |random| == RAND_BYTES
      modifies this, lastRand
      ensures Current() == Advance(old(Current()), Call(now, random))
      ensures r == Output(old(Current()), Call(now, random))
    {
      if now == lastTime {
        var overflow := IncrementBytes(lastRand);
        if overflow { return Overflowed; }
      } else {
        StoreRandom(random);
        lastTime := now;
      }
      var time := EncodeTime(now);
      if time.RangeError? { return RangeError; }
      var text := EncodeRandom(lastRand[..]);
      r := Ok(time.text + text);
    }
  }

  // ----- every run is strictly increasing -----------------------------------

  function After(g: Gen, calls: seq<Call>, n: nat): Gen
    requires n <= |calls|
  {
    if n == 0 then g else Advance(After(g, calls, n - 1), calls[n - 1])
  }

  /** What the n-th call returns. */
  function Returned(g: Gen, calls: seq<Call>, n: nat): Result
    requires n < |calls|
  {
    Output(After(g, calls, n), calls[n])
  }

  ghost predicate Legal(calls: seq<Call>) {
    && (forall i :: 0 <= i < |calls| ==> Encodable(calls[i]))
    && (forall i, j :: 0 <= i < j < |calls| ==> calls[i].now <= calls[j].now)
  }

  lemma {:induction false} RandStays(g: Gen, calls: seq<Call>, n: nat)
    requires |g.lastRand| == RAND_BYTES && n <= |calls| && Legal(calls)
    ensures |After(g, calls, n).lastRand| == RAND_BYTES
    ensures n > 0 ==> After(g, calls, n).lastTime == calls[n - 1].now
  {
    if n > 0 { RandStays(g, calls, n - 1); }
  }

  predicate Encodable(c: Call) {
    |c.random| == RAND_BYTES && c.now < Pow(32, TIME_LEN)
  }

  /**
    Two calls in a row compare as their timestamps do: the second is greater exactly
    when the clock did not go back.
   */
  lemma NextIsGreaterIff(g: Gen, c: Call, d: Call)
    requires |g.lastRand| == RAND_BYTES && Encodable(c) && Encodable(d)
    requires Output(g, c).Ok? && Output(Advance(g, c), d).Ok?
    ensures Less(Output(g, c).text, Output(Advance(g, c), d).text) <==> c.now <= d.now
  {
    var before := Advance(g, c);
    var t0, t1 := Text(Digits(c.now, TIME_LEN)), Text(Digits(d.now, TIME_LEN));
    var r0, r1 := RandomText(before.lastRand), RandomText(Advance(before, d).lastRand);
    if c.now == d.now {
      IncrementIs(before.lastRand);
      RandomTextOrder(before.lastRand, Increment(before.lastRand));
      LessTail(t0, r0, r1);
    } else if c.now < d.now {
      DigitsOrder(c.now, d.now, TIME_LEN);
      LessHead(t0, r0, t1, r1);
    } else {
      DigitsOrder(d.now, c.now, TIME_LEN);
      LessHead(t1, r1, t0, r0);
      LessOrder(t1 + r1, t0 + r0, t0 + r0);
    }
  }

  /**
    Over every sequence of calls with non-decreasing timestamps below 32^10 in
    which none raises, the returned ULIDs are strictly increasing.
   */
  lemma {:induction false} StrictlyIncreasing(g: Gen, calls: seq<Call>, i: nat, j: nat)
    requires |g.lastRand| == RAND_BYTES && i < j < |calls| && Legal(calls)
    requires forall n :: 0 <= n < |calls| ==> Returned(g, calls, n).Ok?
    ensures Less(Returned(g, calls, i).text, Returned(g, calls, j).text)
    decreases j
  {
    NextIsGreater(g, calls, j - 1);
    if i < j - 1 {
      StrictlyIncreasing(g, calls, i, j - 1);
      LessOrder(Returned(g, calls, i).text, Returned(g, calls, j - 1).text, Returned(g, calls, j).text);
    }
  }

  lemma NextIsGreater(g: Gen, calls: seq<Call>, n: nat)
    requires |g.lastRand| == RAND_BYTES && n + 1 < |calls| && Legal(calls)
    requires Returned(g, calls, n).Ok? && Returned(g, calls, n + 1).Ok?
    ensures Less(Returned(g, calls, n).text, Returned(g, calls, n + 1).text)
  {
    RandStays(g, calls, n);
    NextIsGreaterIff(After(g, calls, n), calls[n], calls[n + 1]);
  }

  // ----- runs in which calls may raise --------------------------------------

  /** After a call that succeeded, a call no earlier raises only by overflow: same millisecond, random part all ones. */
  lemma RaiseIsOverflow(g: Gen, calls: seq<Call>, n: nat)
    requires |g.lastRand| == RAND_BYTES && 0 < n < |calls| && Legal(calls) && calls[n - 1].now >= 0 &&
      !Returned(g, calls, n).Ok?
    ensures Returned(g, calls, n) == Overflowed && calls[n].now == calls[n - 1].now &&
      AllOnes(After(g, calls, n).lastRand)
  {
    RandStays(g, calls, n);
  }

  /** The call after an overflow succeeds: in the same millisecond the bytes start over from zero. */
  lemma NextAfterOverflow(g: Gen, calls: seq<Call>, n: nat)
    requires |g.lastRand| == RAND_BYTES && n + 1 < |calls| && Legal(calls) && calls[n].now >= 0 &&
      Returned(g, calls, n) == Overflowed
    ensures Returned(g, calls, n + 1).Ok?
  {
    RandStays(g, calls, n);
    RandStays(g, calls, n + 1);
    IncrementIs(After(g, calls, n).lastRand);
    assert After(g, calls, n + 1).lastRand[0] == 0;
  }

  /**
    The result after an overflow compares with the one before it as the timestamps
    do, and strictly less when they agree.
   */
  lemma AcrossOverflow(g: Gen, calls: seq<Call>, i: nat)
    requires |g.lastRand| == RAND_BYTES && i + 2 < |calls| && Legal(calls)
    requires Returned(g, calls, i).Ok? && Returned(g, calls, i + 1) == Overflowed && Returned(g, calls, i + 2).Ok?
    ensures Less(Returned(g, calls, i).text, Returned(g, calls, i + 2).text) <==> calls[i].now < calls[i + 2].now
  {
    RandStays(g, calls, i);
    RandStays(g, calls, i + 1);
    RandStays(g, calls, i + 2);
    var c, d := calls[i], calls[i + 2];
    var before, after := After(g, calls, i + 1), After(g, calls, i + 3);
    var t0, t1 := Text(Digits(c.now, TIME_LEN)), Text(Digits(d.now, TIME_LEN));
    var r0, r1 := RandomText(before.lastRand), RandomText(after.lastRand);
    assert Returned(g, calls, i).text == t0 + r0 && Returned(g, calls, i + 2).text == t1 + r1;
    if c.now < d.now {
      DigitsOrder(c.now, d.now, TIME_LEN);
      LessHead(t0, r0, t1, r1);
    } else {
      RetryAfterOverflowGoesBack(before, calls[i + 1]);
      assert After(g, calls, i + 2) == Advance(before, calls[i + 1]);
      assert calls[i + 1].now == c.now && Output(After(g, calls, i + 2), d).text == t1 + r1;
      SameTimeRetry(before, calls[i + 1], d);
      LessOrder(t1 + r1, t0 + r0, t0 + r0);
    }
  }

  /** In the same millisecond the drawn bytes do not matter. */
  lemma SameTimeRetry(g: Gen, c: Call, d: Call)
    requires c.now == d.now == g.lastTime
    ensures Output(Advance(g, c), d) == Output(Advance(g, c), c)
  {
  }

  /** Between two successes at most one call raises, and it overflows. */
  lemma OneRaise(g: Gen, calls: seq<Call>, i: nat, j: nat)
    requires |g.lastRand| == RAND_BYTES && i + 1 < j < |calls| && Legal(calls)
    requires Returned(g, calls, i).Ok? && forall k :: i < k < j ==> !Returned(g, calls, k).Ok?
    ensures j == i + 2 && Returned(g, calls, i + 1) == Overflowed && calls[i + 1].now == calls[i].now
  {
    RaiseIsOverflow(g, calls, i + 1);
    NextAfterOverflow(g, calls, i + 1);
  }

  /**
    Of two successes with only raising calls between them, at non-decreasing
    times, the later result is greater exactly when its timestamp is or when
    nothing raised in between.
   */
  lemma SuccessesCompareIff(g: Gen, calls: seq<Call>, i: nat, j: nat)
    requires |g.lastRand| == RAND_BYTES && i < j < |calls| && Legal(calls)
    requires Returned(g, calls, i).Ok? && Returned(g, calls, j).Ok?
    requires forall k :: i < k < j ==> !Returned(g, calls, k).Ok?
    ensures Less(Returned(g, calls, i).text, Returned(g, calls, j).text) <==> calls[i].now < calls[j].now || j == i + 1
  {
    if j == i + 1 {
      RandStays(g, calls, i);
      NextIsGreaterIff(After(g, calls, i), calls[i], calls[j]);
    } else {
      OneRaise(g, calls, i, j);
      AcrossOverflow(g, calls, i);
    }
  }

  /** Some call follows a success, overflows, and is followed by another in the same millisecond. */
  ghost predicate RetriesAt(g: Gen, calls: seq<Call>, k: nat)
    requires k < |calls|
  {
    && 0 < k && k + 1 < |calls| && Returned(g, calls, k - 1).Ok?
    && Returned(g, calls, k) == Overflowed && calls[k + 1].now == calls[k].now
  }

  /** The success before a success, no further back than `i`. */
  lemma PreviousSuccess(g: Gen, calls: seq<Call>, i: nat, j: nat) returns (k: nat)
    requires |g.lastRand| == RAND_BYTES && i < j < |calls| && Legal(calls)
    requires Returned(g, calls, i).Ok? && Returned(g, calls, j).Ok?
    ensures i <= k < j && Returned(g, calls, k).Ok? && forall n :: k < n < j ==> !Returned(g, calls, n).Ok?
  {
    k := j - 1;
    while !Returned(g, calls, k).Ok?
      invariant i <= k < j && forall n :: k < n < j ==> !Returned(g, calls, n).Ok?
      decreases k
    {
      k := k - 1;
    }
  }

  lemma NeighboursIncrease(g: Gen, calls: seq<Call>, i: nat, j: nat)
    requires |g.lastRand| == RAND_BYTES && i < j < |calls| && Legal(calls)
    requires Returned(g, calls, i).Ok? && Returned(g, calls, j).Ok?
    requires forall k :: i < k < j ==> !Returned(g, calls, k).Ok?
    requires forall k :: 0 <= k < |calls| ==> !RetriesAt(g, calls, k)
    ensures Less(Returned(g, calls, i).text, Returned(g, calls, j).text)
  {
    SuccessesCompareIff(g, calls, i, j);
    if i + 1 < j {
      OneRaise(g, calls, i, j);
      assert !RetriesAt(g, calls, i + 1);
    }
  }

  lemma {:induction false} IncreasingWithoutRetry(g: Gen, calls: seq<Call>, i: nat, j: nat)
    requires |g.lastRand| == RAND_BYTES && i < j < |calls| && Legal(calls)
    requires Returned(g, calls, i).Ok? && Returned(g, calls, j).Ok? && forall k :: 0 <= k < |calls| ==>
      !RetriesAt(g, calls, k)
    ensures Less(Returned(g, calls, i).text, Returned(g, calls, j).text)
    decreases j
  {
    var k := PreviousSuccess(g, calls, i, j);
    NeighboursIncrease(g, calls, k, j);
    if i < k {
      IncreasingWithoutRetry(g, calls, i, k);
      LessOrder(Returned(g, calls, i).text, Returned(g, calls, k).text, Returned(g, calls, j).text);
    }
  }

  ghost predicate SuccessesIncrease(g: Gen, calls: seq<Call>) {
    forall i, j :: 0 <= i < j < |calls| && Returned(g, calls, i).Ok? && Returned(g, calls, j).Ok? ==>
      Less(Returned(g, calls, i).text, Returned(g, calls, j).text)
  }

  /**
    Over every run at non-decreasing times, raising calls included, the results
    increase exactly when no overflow is retried within its millisecond.
   */
  lemma MonotonicIff(g: Gen, calls: seq<Call>)
    requires |g.lastRand| == RAND_BYTES && Legal(calls)
    ensures SuccessesIncrease(g, calls) <==> forall k :: 0 <= k < |calls| ==> !RetriesAt(g, calls, k)
  {
    if k :| 0 <= k < |calls| && RetriesAt(g, calls, k) {
      assert calls[k - 1].now >= 0;
      RetryBreaks(g, calls, k);
    } else {
      forall i, j | 0 <= i < j < |calls| && Returned(g, calls, i).Ok? && Returned(g, calls, j).Ok?
        ensures Less(Returned(g, calls, i).text, Returned(g, calls, j).text)
      {
        IncreasingWithoutRetry(g, calls, i, j);
      }
    }
  }

  lemma RetryBreaks(g: Gen, calls: seq<Call>, k: nat)
    requires |g.lastRand| == RAND_BYTES && Legal(calls) && k < |calls| && RetriesAt(g, calls, k)
    ensures !SuccessesIncrease(g, calls)
  {
    RaiseIsOverflow(g, calls, k);
    NextAfterOverflow(g, calls, k);
    SuccessesCompareIff(g, calls, k - 1, k + 1);
  }

  lemma {:induction false} DigitsSpell(n: nat, len: nat)
    requires n < Pow(32, len)
    ensures DigitValue(Digits(n, len), len) == n
  {
    if len > 0 {
      assert Pow(32, len) == 32 * Pow(32, len - 1);
      DigitsSpell(n / 32, len - 1);
      DigitValuePrefix(Digits(n, len), Digits(n / 32, len - 1), len - 1);
    }
  }

  /**
    What a ULID spells: the call's time in ten digits, then sixteen digits of the
    bytes drawn for a new millisecond, or of the previous random part plus one in
    the same millisecond. The generator remembers both numbers.
   */
  lemma UlidSpells(g: Gen, c: Call) returns (time: seq<Digit>, random: seq<Digit>)
    requires |g.lastRand| == RAND_BYTES && Encodable(c) && Output(g, c).Ok?
    ensures |time| == 10 && |random| == 16 && Output(g, c).text == Text(time) + Text(random)
    ensures DigitValue(time, 10) == c.now
    ensures DigitValue(random, 16) == if c.now == g.lastTime then Value(g.lastRand) + 1 else Value(c.random)
    ensures Advance(g, c).lastTime == c.now && Value(Advance(g, c).lastRand) == DigitValue(random, 16)
  {
    var bytes := Advance(g, c).lastRand;
    time, random := Digits(c.now, TIME_LEN), Digits(Value(bytes), RAND_LEN);
    IncrementIs(g.lastRand);
    RandomFits(bytes);
    DigitsSpell(c.now, TIME_LEN);
    DigitsSpell(Value(bytes), RAND_LEN);
  }

  /** Every ULID has 26 characters of the alphabet. */
  lemma UlidShape(g: Gen, c: Call)
    requires Output(g, c).Ok?
    ensures |Output(g, c).text| == TIME_LEN + RAND_LEN
    ensures forall k :: 0 <= k < |Output(g, c).text| ==> IsSymbol(Output(g, c).text[k])
  {
    TextOfSymbols(Digits(c.now, TIME_LEN));
    TextOfSymbols(Digits(Value(Advance(g, c).lastRand), RAND_LEN));
  }

  ghost predicate IsSymbol(x: char) {
    exists d: Digit :: Symbol(d) == x
  }

  lemma TextOfSymbols(ds: seq<Digit>)
    ensures forall k :: 0 <= k < |Text(ds)| ==> IsSymbol(Text(ds)[k])
  {
    forall k | 0 <= k < |Text(ds)| ensures IsSymbol(Text(ds)[k]) {
      assert Symbol(ds[k]) == Text(ds)[k];
    }
  }

  /** A call raises exactly for a negative time or when the same millisecond finds the random part all ones. */
  lemma RaisesIff(g: Gen, c: Call)
    requires |g.lastRand| == RAND_BYTES
    ensures !Output(g, c).Ok? <==> c.now < 0 || (c.now == g.lastTime && Value(g.lastRand) == Pow(256, RAND_BYTES) - 1)
  {
    OnesAndZeros(g.lastRand, RAND_BYTES);
    assert g.lastRand[..RAND_BYTES] == g.lastRand;
  }

  /** After an overflow the increment has wrapped, so a retry in the same millisecond goes backwards. */
  lemma RetryAfterOverflowGoesBack(g: Gen, c: Call)
    requires |g.lastRand| == RAND_BYTES && AllOnes(g.lastRand) && c.now == g.lastTime >= 0
    ensures Output(g, c) == Overflowed
    ensures var retry := Output(Advance(g, c), c); var last := Text(Digits(c.now, TIME_LEN)) + RandomText(g.lastRand);
      retry.Ok? && Less(retry.text, last)
  {
    var zeros := Advance(g, c).lastRand;
    IncrementIs(g.lastRand);
    OnesAndZeros(g.lastRand, RAND_BYTES);
    OnesAndZeros(zeros, RAND_BYTES);
    assert g.lastRand[..RAND_BYTES] == g.lastRand && zeros[..RAND_BYTES] == zeros;
    assert Pow(256, 10) > 2 by { assert Pow(256, 5) == 0x100_0000_0000; }
    assert !AllOnes(zeros);
    IncrementIs(zeros);
    var t := Text(Digits(c.now, TIME_LEN));
    RandomTextOrder(Increment(zeros), g.lastRand);
    LessTail(t, RandomText(Increment(zeros)), RandomText(g.lastRand));
  }
}

/** The alphabet table of the source, kept apart from the proofs that only need its order. */
module CrockfordTable {
  import opened Ulid

  const CROCKFORD := "0123456789ABCDEFGHJKMNPQRSTVWXYZ"

  lemma SymbolIsTableEntry(d: Digit)
    ensures |CROCKFORD| == 32 && Symbol(d) == CROCKFORD[d]
  {
  }
}

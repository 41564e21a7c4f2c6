/**
  The scrambled time stamp of a session token (auth/security_auth_enhance.c): a 64-bit counter kept as
  8 bytes, each exclusive-or'd with a byte of the scrambling key.
 */
module TokenStamp {
  import opened Options
  import opened Octets
  import opened Dyadic

  const STAMP_LEN: nat := 8
  const KEY_LEN: nat := 4

  // ----- exclusive or, bit by bit

  /** `a ^ b` on `n` bits. */
  function Xor(a: nat, b: nat, n: nat): (r: nat)
    ensures r < Pow2(n)
  {
    if n == 0 then 0 else 2 * Xor(a / 2, b / 2, n - 1) + (a + b) % 2
  }

  lemma {:induction false} XorTwice(a: nat, b: nat, n: nat)
    requires a < Pow2(n)
    ensures Xor(Xor(a, b, n), b, n) == a
  {
    if n > 0 {
      var x, y := Xor(a / 2, b / 2, n - 1), (a + b) % 2;
      XorTwice(a / 2, b / 2, n - 1);
      assert Xor(a, b, n) == 2 * x + y;
      LowBit(x, y);
      BitTwice(a, b);
    }
  }

  lemma LowBit(x: nat, y: nat)
    requires y < 2
    ensures (2 * x + y) / 2 == x && (2 * x + y) % 2 == y
  {
  }

  /** Bits of `2 * x + (a + b) % 2` and `b`, put together again, give the low bit of `a`. */
  lemma BitTwice(a: nat, b: nat)
    ensures forall x: nat :: (2 * x + (a + b) % 2 + b) % 2 == a % 2
    ensures a == 2 * (a / 2) + a % 2
  {
  }

  lemma ByteBits()
    ensures Pow2(8) == 256
  {
    assert Pow2(4) == 16;
  }

  function XorByte(a: byte, b: byte): (r: byte)
  {
    ByteBits();
    Xor(a, b, 8)
  }

  lemma XorByteTwice(a: byte, b: byte)
    ensures XorByte(XorByte(a, b), b) == a
  {
    ByteBits();
    XorTwice(a, b, 8);
  }

  // ----- scrambling

  function KeyByte(key: seq<byte>, i: nat): byte
    requires |key| > 0
  {
    key[i % |key|]
  }

  /** `scrambling_timestamp` as a function of the bytes. */
  function Scramble(data: seq<byte>, key: seq<byte>): (r: seq<byte>)
    requires |key| > 0
    ensures |r| == |data|
    ensures forall i :: 0 <= i < |data| ==> r[i] == XorByte(data[i], KeyByte(key, i))
  {
    seq(|data|, i requires 0 <= i < |data| => XorByte(data[i], KeyByte(key, i)))
  }

  /** Scrambling is its own inverse, for every key. */
  lemma ScrambleTwice(data: seq<byte>, key: seq<byte>)
    requires |key| > 0
    ensures Scramble(Scramble(data, key), key) == data
  {
    forall i | 0 <= i < |data|
      ensures Scramble(Scramble(data, key), key)[i] == data[i]
    {
      XorByteTwice(data[i], KeyByte(key, i));
    }
  }

  // ----- a number as bytes, low byte first

  function Power256(n: nat): (r: nat)
    ensures r > 0
  {
    if n == 0 then 1 else 256 * Power256(n - 1)
  }

  function ToNat(b: seq<byte>): (r: nat)
    ensures r < Power256(|b|)
  {
    if b == [] then 0 else
      var low: int := b[0];
      low + 256 * ToNat(b[1..])
  }

  function FromNat(x: nat, n: nat): (r: seq<byte>)
    ensures |r| == n
  {
    if n == 0 then [] else [x % 256] + FromNat(x / 256, n - 1)
  }

  lemma {:induction false} FromThenTo(x: nat, n: nat)
    requires x < Power256(n)
    ensures ToNat(FromNat(x, n)) == x
  {
    if n > 0 {
      FromThenTo(x / 256, n - 1);
      assert FromNat(x, n)[1..] == FromNat(x / 256, n - 1);
    }
  }

  lemma {:induction false} ToThenFrom(b: seq<byte>)
    ensures FromNat(ToNat(b), |b|) == b
  {
    if b != [] {
      ToThenFrom(b[1..]);
      assert ToNat(b) / 256 == ToNat(b[1..]) && ToNat(b) % 256 == b[0];
    }
  }

  // ----- the stamp

  datatype Change = Inc | Dec

  /** `change_time_stamp` */
  function Changed(flag: Change, t: nat): (r: Option<nat>) {
    match flag
    case Inc => if t < U64 - 1 then Some(t + 1) else None
    case Dec => if t > 0 then Some(t - 1) else None
  }

  /** The counter that the scrambled bytes stand for. */
  function Stamp(b: seq<byte>, key: seq<byte>): (t: nat)
    requires |key| > 0
  {
    ToNat(Scramble(b, key))
  }

  /** The scrambled bytes of a counter. */
  function Scrambled(t: nat, key: seq<byte>): (b: seq<byte>)
    requires |key| > 0
    ensures |b| == STAMP_LEN
  {
    Scramble(FromNat(t, STAMP_LEN), key)
  }

  lemma EightBytes()
    ensures Power256(STAMP_LEN) == U64
  {
    assert Power256(4) == 0x1_0000_0000;
    assert Power256(6) == 0x100 * Power256(5) == 0x1_0000 * Power256(4);
    assert Power256(8) == 0x100 * Power256(7) == 0x1_0000 * Power256(6);
  }

  /** Bytes and counters correspond one to one, for every key. */
  lemma StampOfScrambled(t: nat, key: seq<byte>)
    requires |key| > 0 && t < U64
    ensures Stamp(Scrambled(t, key), key) == t
  {
    EightBytes();
    ScrambleTwice(FromNat(t, STAMP_LEN), key);
    FromThenTo(t, STAMP_LEN);
  }

  lemma ScrambledOfStamp(b: seq<byte>, key: seq<byte>)
    requires |key| > 0 && |b| == STAMP_LEN
    ensures Scrambled(Stamp(b, key), key) == b && Stamp(b, key) < U64
  {
    EightBytes();
    ToThenFrom(Scramble(b, key));
    ScrambleTwice(b, key);
  }

  /** `descrambling_timestamp` on the 8 bytes of the stamp. */
  function Moved(b: seq<byte>, key: seq<byte>, flag: Change): (r: Option<seq<byte>>)
    requires |key| > 0 && |b| == STAMP_LEN
    ensures r.Some? ==> |r.value| == STAMP_LEN
  {
    match Changed(flag, Stamp(b, key))
    case None => None
    case Some(t) => Some(Scrambled(t, key))
  }

  /** Moving the bytes moves the counter; it fails only at the ends of the 64-bit range. */
  lemma MovedStamp(b: seq<byte>, key: seq<byte>, flag: Change)
    requires |key| > 0 && |b| == STAMP_LEN
    ensures Moved(b, key, flag).None? <==> (flag.Inc? && Stamp(b, key) == U64 - 1) || (flag.Dec? && Stamp(b, key) == 0)
    ensures (Moved(b, key, flag).Some? ==>
      Stamp(Moved(b, key, flag).value, key) == if flag.Inc? then Stamp(b, key) + 1 else Stamp(b, key) - 1)
  {
    ScrambledOfStamp(b, key);
    if Moved(b, key, flag).Some? {
      StampOfScrambled(Changed(flag, Stamp(b, key)).value, key);
    }
  }

  /** The stamp after `n` submissions. */
  function Submitted(b: seq<byte>, key: seq<byte>, n: nat): (r: Option<seq<byte>>)
    requires |key| > 0 && |b| == STAMP_LEN
    ensures r.Some? ==> |r.value| == STAMP_LEN
  {
    if n == 0 then Some(b) else
      match Submitted(b, key, n - 1)
      case None => None
      case Some(c) => Moved(c, key, Inc)
  }

  lemma {:induction false} SubmittedStamp(b: seq<byte>, key: seq<byte>, n: nat)
    requires |key| > 0 && |b| == STAMP_LEN
    ensures Submitted(b, key, n).Some? <==> Stamp(b, key) + n < U64
    ensures Submitted(b, key, n).Some? ==> Stamp(Submitted(b, key, n).value, key) == Stamp(b, key) + n
  {
    ScrambledOfStamp(b, key);
    if n > 0 {
      SubmittedStamp(b, key, n - 1);
      var c := Submitted(b, key, n - 1);
      if c.Some? {
        MovedStamp(c.value, key, Inc);
      }
    }
  }

  /**
    A roll-back takes back one submission: after `n` submissions that were not synchronised the counter is `n - 1` too
    high, so the bytes are what they were if and only if there was exactly one.
   */
  lemma RollbackRestores(b: seq<byte>, key: seq<byte>, n: nat)
    requires |key| > 0 && |b| == STAMP_LEN && n > 0 && Stamp(b, key) + n < U64
    ensures Submitted(b, key, n).Some? && Moved(Submitted(b, key, n).value, key, Dec).Some?
    ensures Stamp(Moved(Submitted(b, key, n).value, key, Dec).value, key) == Stamp(b, key) + n - 1
    ensures Moved(Submitted(b, key, n).value, key, Dec).value == b <==> n == 1
  {
    SubmittedStamp(b, key, n);
    var c := Submitted(b, key, n).value;
    MovedStamp(c, key, Dec);
    ScrambledOfStamp(b, key);
    ScrambledOfStamp(Moved(c, key, Dec).value, key);
  }
}

/** The 32-bit operations of SHA-1: the standard's, the packer's own, and how they agree. */
module Word32 {

  type Byte = bv8
  type Word = bv32

  // ----- FIPS 180-4, sections 2.2.2, 3.2 and 4.1.1 -----

  function Ch(x: Word, y: Word, z: Word): Word { (x & y) ^ (!x & z) }

  function Parity(x: Word, y: Word, z: Word): Word { x ^ y ^ z }

  function Maj(x: Word, y: Word, z: Word): Word { (x & y) ^ (x & z) ^ (y & z) }

  function Rotl1(w: Word): Word { w.RotateLeft(1) }

  function Rotl5(w: Word): Word { w.RotateLeft(5) }

  function Rotl30(w: Word): Word { w.RotateLeft(30) }

  function Plus(x: Word, y: Word): Word { x + y }

  function Sum(v: Word, w: Word, x: Word, y: Word, z: Word): Word { v + w + x + y + z }

  function Xor(w: Word, x: Word, y: Word, z: Word): Word { w ^ x ^ y ^ z }

  // ----- the packer's formulas, where they differ -----

  function Sha1Shift(v: Word, shift: Word): Word
    requires shift <= 32
  {
    (v << shift) | (v >> (32 - shift))
  }

  function ChooseOr(b: Word, c: Word, d: Word): Word { (b & c) | (!b & d) }

  function MajorityOr(b: Word, c: Word, d: Word): Word { (b & c) | (b & d) | (c & d) }

  lemma ShiftIsRotl(v: Word)
    ensures Sha1Shift(v, 1) == Rotl1(v)
    ensures Sha1Shift(v, 5) == Rotl5(v)
    ensures Sha1Shift(v, 30) == Rotl30(v)
  {
  }

  lemma ChooseBits(b: Word, c: Word, d: Word)
    ensures (b & c) | (!b & d) == (b & c) ^ (!b & d)
  {
  }

  lemma ChooseOrIsCh(b: Word, c: Word, d: Word)
    ensures ChooseOr(b, c, d) == Ch(b, c, d)
  {
    assert ChooseOr(b, c, d) == (b & c) | (!b & d);
    assert Ch(b, c, d) == (b & c) ^ (!b & d);
    ChooseBits(b, c, d);
  }

  lemma MajorityBits(b: Word, c: Word, d: Word)
    ensures (b & c) | (b & d) | (c & d) == (b & c) ^ (b & d) ^ (c & d)
  {
  }

  lemma MajorityOrIsMaj(b: Word, c: Word, d: Word)
    ensures MajorityOr(b, c, d) == Maj(b, c, d)
  {
    assert MajorityOr(b, c, d) == (b & c) | (b & d) | (c & d);
    assert Maj(b, c, d) == (b & c) ^ (b & d) ^ (c & d);
    MajorityBits(b, c, d);
  }

  // ----- words and bytes, big-endian -----

  function BigEndian(b0: Byte, b1: Byte, b2: Byte, b3: Byte): Word {
    ((b0 as Word) << 24) | ((b1 as Word) << 16) | ((b2 as Word) << 8) | (b3 as Word)
  }

  function Byte0(w: Word): Byte { ((w >> 24) & 0xFF) as Byte }

  function Byte1(w: Word): Byte { ((w >> 16) & 0xFF) as Byte }

  function Byte2(w: Word): Byte { ((w >> 8) & 0xFF) as Byte }

  function Byte3(w: Word): Byte { (w & 0xFF) as Byte }

  lemma BytesOfWord(w: Word)
    ensures BigEndian(Byte0(w), Byte1(w), Byte2(w), Byte3(w)) == w
  {
  }

  lemma ZeroBytes()
    ensures BigEndian(0, 0, 0, 0) == 0
    ensures Byte0(0) == Byte1(0) == Byte2(0) == Byte3(0) == 0
  {
  }

  function Or(x: Word, y: Word): Word { x | y }

  function Shifted0(b: Byte): Word { (b as Word) << 24 }

  function Shifted1(b: Byte): Word { (b as Word) << 16 }

  function Shifted2(b: Byte): Word { (b as Word) << 8 }

  function Shifted3(b: Byte): Word { b as Word }

  lemma PlaceFirst(b: Byte)
    ensures Or(BigEndian(0, 0, 0, 0), Shifted0(b)) == BigEndian(b, 0, 0, 0)
  {
  }

  lemma PlaceSecond(b0: Byte, b: Byte)
    ensures Or(BigEndian(b0, 0, 0, 0), Shifted1(b)) == BigEndian(b0, b, 0, 0)
  {
  }

  lemma PlaceThird(b0: Byte, b1: Byte, b: Byte)
    ensures Or(BigEndian(b0, b1, 0, 0), Shifted2(b)) == BigEndian(b0, b1, b, 0)
  {
  }

  lemma PlaceFourth(b0: Byte, b1: Byte, b2: Byte, b: Byte)
    ensures Or(BigEndian(b0, b1, b2, 0), Shifted3(b)) == BigEndian(b0, b1, b2, b)
  {
  }

  function Uint32(n: nat): Word
    requires n < 0x1_0000_0000
  {
    n as Word
  }

  lemma Uint32Zero(n: nat)
    requires n < 0x1_0000_0000
    ensures Uint32(n) == 0 <==> n == 0
  {
  }
}

/** SHA-1 as FIPS 180-4 defines it (sections 2.2.2, 3.2, 4.1.1, 4.2.1, 5.1.1, 5.2.1, 5.3.1 and 6.1.2), on messages of
    whole bytes. */
module Fips180 {

  import opened Word32

  datatype State = State(a: Word, b: Word, c: Word, d: Word, e: Word)

  function F(t: nat, x: Word, y: Word, z: Word): Word
    requires t < 80
  {
    if t < 20 then Ch(x, y, z) else if 40 <= t < 60 then Maj(x, y, z) else Parity(x, y, z)
  }

  function K(t: nat): Word
    requires t < 80
  {
    if t < 20 then 0x5a827999 else if t < 40 then 0x6ed9eba1 else if t < 60 then 0x8f1bbcdc else 0xca62c1d6
  }

  /** The message schedule. */
  function W(block: seq<Word>, t: nat): Word
    requires |block| == 16 && t < 80
  {
    if t < 16 then block[t]
    else Rotl1(Xor(W(block, t - 3), W(block, t - 8), W(block, t - 14), W(block, t - 16)))
  }

  /** The working variables after the first `t` rounds. */
  function Rounds(h: State, block: seq<Word>, t: nat): State
    requires |block| == 16 && t <= 80
  {
    if t == 0 then h
    else
      var s := Rounds(h, block, t - 1);
      State(Sum(Rotl5(s.a), F(t - 1, s.b, s.c, s.d), s.e, K(t - 1), W(block, t - 1)), s.a, Rotl30(s.b), s.c, s.d)
  }

  function Added(h: State, s: State): State {
    State(Plus(h.a, s.a), Plus(h.b, s.b), Plus(h.c, s.c), Plus(h.d, s.d), Plus(h.e, s.e))
  }

  function Compress(h: State, block: seq<Word>): State
    requires |block| == 16
  {
    Added(h, Rounds(h, block, 80))
  }

  const INITIAL := State(0x67452301, 0xefcdab89, 0x98badcfe, 0x10325476, 0xc3d2e1f0)

  // ----- words and bytes, big-endian -----

  function ByteOf(w: Word, pos: nat): Byte
    requires pos < 4
  {
    match pos
    case 0 => Byte0(w)
    case 1 => Byte1(w)
    case 2 => Byte2(w)
    case 3 => Byte3(w)
  }

  function WordAt(bytes: seq<Byte>, i: nat): Word
    requires 4 * i + 4 <= |bytes|
  {
    BigEndian(bytes[4 * i], bytes[4 * i + 1], bytes[4 * i + 2], bytes[4 * i + 3])
  }

  function WordBytes(w: Word): (bytes: seq<Byte>)
    ensures |bytes| == 4
  {
    [ByteOf(w, 0), ByteOf(w, 1), ByteOf(w, 2), ByteOf(w, 3)]
  }

  function BlockWords(bytes: seq<Byte>): (words: seq<Word>)
    requires |bytes| == 64
    ensures |words| == 16
  {
    seq(16, i requires 0 <= i < 16 => WordAt(bytes, i))
  }

  // ----- padding and the hash itself -----

  function Zeros(n: nat): (z: seq<Byte>)
    ensures |z| == n
  {
    seq(n, _ => 0)
  }

  /** The number of zero bytes between the end marker and the length field. */
  function ZeroCount(len: nat): (k: nat)
    ensures (len + 9 + k) % 64 == 0
  {
    assert len == 64 * (len / 64) + len % 64;
    (119 - len % 64) % 64
  }

  /** The 64-bit big-endian length field, for a message of `len` bytes. */
  function LengthField(len: nat): (bytes: seq<Byte>)
    requires len < 0x2000_0000_0000_0000
    ensures |bytes| == 8
  {
    WordBytes(Uint32(8 * len / 0x1_0000_0000)) + WordBytes(Uint32(8 * len % 0x1_0000_0000))
  }

  function Padded(msg: seq<Byte>): (p: seq<Byte>)
    requires |msg| < 0x2000_0000_0000_0000
    ensures |p| % 64 == 0
  {
    msg + [0x80] + Zeros(ZeroCount(|msg|)) + LengthField(|msg|)
  }

  function HashBlocks(bytes: seq<Byte>): State
    requires |bytes| % 64 == 0
    decreases |bytes|
  {
    if bytes == [] then INITIAL
    else Compress(HashBlocks(bytes[..|bytes| - 64]), BlockWords(bytes[|bytes| - 64..]))
  }

  function StateWords(h: State): (words: seq<Word>)
    ensures |words| == 5
  {
    [h.a, h.b, h.c, h.d, h.e]
  }

  function Digest(h: State): (d: seq<Byte>)
    ensures |d| == 20
  {
    seq(20, i requires 0 <= i < 20 => ByteOf(StateWords(h)[i / 4], i % 4))
  }

  function Sha1(msg: seq<Byte>): (d: seq<Byte>)
    requires |msg| < 0x2000_0000_0000_0000
    ensures |d| == 20
  {
    Digest(HashBlocks(Padded(msg)))
  }

  /** The padding of section 5.1.1: `k` is the smallest count that makes the bit length congruent to 448 modulo 512. */
  lemma ZeroCountIsSmallest(len: nat, k: nat)
    ensures (8 * len + 8 + 8 * ZeroCount(len)) % 512 == 448
    ensures (8 * len + 8 + 8 * k) % 512 == 448 ==> ZeroCount(len) <= k
  {
    var q, r := len / 64, len % 64;
    assert len == 64 * q + r;
  }

  /** The digest is the five words of the state, big-endian. */
  lemma DigestWords(h: State, j: nat)
    requires j < 5
    ensures WordAt(Digest(h), j) == StateWords(h)[j]
  {
    hide Byte0, Byte1, Byte2, Byte3, BigEndian, StateWords;
    var d := Digest(h);
    assert (4 * j) / 4 == (4 * j + 1) / 4 == (4 * j + 2) / 4 == (4 * j + 3) / 4 == j;
    assert d[4 * j] == ByteOf(StateWords(h)[j], 0);
    assert d[4 * j + 1] == ByteOf(StateWords(h)[j], 1);
    assert d[4 * j + 2] == ByteOf(StateWords(h)[j], 2);
    assert d[4 * j + 3] == ByteOf(StateWords(h)[j], 3);
    BytesOfWord(StateWords(h)[j]);
  }

  /** Splitting a word into bytes and joining bytes into a word are inverse to each other. */
  lemma WordBytesInverse(w: Word)
    ensures WordAt(WordBytes(w), 0) == w
  {
    BytesOfWord(w);
  }
}

/** The packer's own SHA-1: in-place rounds over a reused 80-word buffer, with its own tail. */
module PackerSha1 {
  import opened Basics
  import opened Word32
  import opened Fips180

  function Loaded(sha: seq<Word>): State
    requires |sha| == 5
  {
    State(sha[0], sha[1], sha[2], sha[3], sha[4])
  }

  /** The first `n` words of the schedule are in place; the rest of the buffer may hold anything. */
  ghost predicate Scheduled(temp: seq<Word>, block: seq<Word>, n: nat)
    requires |temp| == 80 && |block| == 16 && n <= 80
  {
    forall t :: 0 <= t < n ==> temp[t] == W(block, t)
  }

  method ShiftSwap(s: State, f: Word, v: Word, w: Word) returns (r: State)
    ensures r == State(Sum(Rotl5(s.a), f, s.e, v, w), s.a, Rotl30(s.b), s.c, s.d)
  {
    ShiftIsRotl(s.a);
    ShiftIsRotl(s.b);
    r := State(Sum(Sha1Shift(s.a, 5), f, s.e, v, w), s.a, Sha1Shift(s.b, 30), s.c, s.d);
  }

  method Extend(temp: array<Word>, round: nat, ghost block: seq<Word>)
    requires temp.Length == 80 && |block| == 16 && 16 <= round < 80
    requires Scheduled(temp[..], block, round)
    modifies temp
    ensures Scheduled(temp[..], block, round + 1)
  {
    var x := Xor(temp[round - 3], temp[round - 8], temp[round - 14], temp[round - 16]);
    ShiftIsRotl(x);
    assert Scheduled(temp[..], block, round);
    temp[round] := Sha1Shift(x, 1);
  }

  // ----- the five loops over the rounds -----

  method RoundsTo16(s: State, temp: array<Word>, ghost h: State, ghost block: seq<Word>) returns (r: State)
    requires temp.Length == 80 && |block| == 16
    requires s == Rounds(h, block, 0) && Scheduled(temp[..], block, 16)
    ensures r == Rounds(h, block, 16)
  {
    r := s;
    var round := 0;
    while round < 16
      invariant 0 <= round <= 16 && r == Rounds(h, block, round) && Scheduled(temp[..], block, 16)
    {
      ChooseOrIsCh(r.b, r.c, r.d);
      r := ShiftSwap(r, ChooseOr(r.b, r.c, r.d), 0x5a827999, temp[round]);
      round := round + 1;
    }
  }

  method RoundsTo20(s: State, temp: array<Word>, ghost h: State, ghost block: seq<Word>) returns (r: State)
    requires temp.Length == 80 && |block| == 16
    requires s == Rounds(h, block, 16) && Scheduled(temp[..], block, 16)
    modifies temp
    ensures r == Rounds(h, block, 20)
    ensures Scheduled(temp[..], block, 20)
  {
    r := s;
    var round := 16;
    while round < 20
      invariant 16 <= round <= 20 && r == Rounds(h, block, round) && Scheduled(temp[..], block, round)
    {
      Extend(temp, round, block);
      ChooseOrIsCh(r.b, r.c, r.d);
      r := ShiftSwap(r, ChooseOr(r.b, r.c, r.d), 0x5a827999, temp[round]);
      round := round + 1;
    }
  }

  method RoundsTo40(s: State, temp: array<Word>, ghost h: State, ghost block: seq<Word>) returns (r: State)
    requires temp.Length == 80 && |block| == 16
    requires s == Rounds(h, block, 20) && Scheduled(temp[..], block, 20)
    modifies temp
    ensures r == Rounds(h, block, 40)
    ensures Scheduled(temp[..], block, 40)
  {
    r := s;
    var round := 20;
    while round < 40
      invariant 20 <= round <= 40 && r == Rounds(h, block, round) && Scheduled(temp[..], block, round)
    {
      Extend(temp, round, block);
      r := ShiftSwap(r, Parity(r.b, r.c, r.d), 0x6ed9eba1, temp[round]);
      round := round + 1;
    }
  }

  method RoundsTo60(s: State, temp: array<Word>, ghost h: State, ghost block: seq<Word>) returns (r: State)
    requires temp.Length == 80 && |block| == 16
    requires s == Rounds(h, block, 40) && Scheduled(temp[..], block, 40)
    modifies temp
    ensures r == Rounds(h, block, 60)
    ensures Scheduled(temp[..], block, 60)
  {
    r := s;
    var round := 40;
    while round < 60
      invariant 40 <= round <= 60 && r == Rounds(h, block, round) && Scheduled(temp[..], block, round)
    {
      Extend(temp, round, block);
      MajorityOrIsMaj(r.b, r.c, r.d);
      r := ShiftSwap(r, MajorityOr(r.b, r.c, r.d), 0x8f1bbcdc, temp[round]);
      round := round + 1;
    }
  }

  method RoundsTo80(s: State, temp: array<Word>, ghost h: State, ghost block: seq<Word>) returns (r: State)
    requires temp.Length == 80 && |block| == 16
    requires s == Rounds(h, block, 60) && Scheduled(temp[..], block, 60)
    modifies temp
    ensures r == Rounds(h, block, 80)
    ensures Scheduled(temp[..], block, 80)
  {
    r := s;
    var round := 60;
    while round < 80
      invariant 60 <= round <= 80 && r == Rounds(h, block, round) && Scheduled(temp[..], block, round)
    {
      Extend(temp, round, block);
      r := ShiftSwap(r, Parity(r.b, r.c, r.d), 0xca62c1d6, temp[round]);
      round := round + 1;
    }
  }

  method AddTo(sha: array<Word>, s: State)
    requires sha.Length == 5
    modifies sha
    ensures Loaded(sha[..]) == Added(old(Loaded(sha[..])), s)
  {
    sha[0], sha[1], sha[2], sha[3], sha[4]
      := Plus(sha[0], s.a), Plus(sha[1], s.b), Plus(sha[2], s.c), Plus(sha[3], s.d), Plus(sha[4], s.e);
  }

  method Sha1PartHash(sha: array<Word>, temp: array<Word>)
    requires sha.Length == 5 && temp.Length == 80 && sha != temp
    modifies sha, temp
    ensures Loaded(sha[..]) == Compress(old(Loaded(sha[..])), old(temp[..16]))
  {
    ghost var h, block := Loaded(sha[..]), temp[..16];
    var s := State(sha[0], sha[1], sha[2], sha[3], sha[4]);
    s := RoundsTo16(s, temp, h, block);
    s := RoundsTo20(s, temp, h, block);
    s := RoundsTo40(s, temp, h, block);
    s := RoundsTo60(s, temp, h, block);
    s := RoundsTo80(s, temp, h, block);
    AddTo(sha, s);
  }

  // ----- the blocks and the tail -----

  /** The word a byte makes when it is put at position `pos` of an otherwise empty word. */
  function ShiftedByte(b: Byte, pos: nat): Word
    requires pos < 4
  {
    match pos
    case 0 => Shifted0(b)
    case 1 => Shifted1(b)
    case 2 => Shifted2(b)
    case 3 => Shifted3(b)
  }

  /** A last, partly filled block: the bytes so far and zeros behind them. */
  function Filled(bytes: seq<Byte>): (r: seq<Byte>)
    requires |bytes| <= 64
    ensures |r| == 64
  {
    bytes + Zeros(64 - |bytes|)
  }

  lemma PlaceInWord(bytes: seq<Byte>, b: Byte)
    requires |bytes| < 64
    ensures var k := |bytes| / 4;
            WordAt(Filled(bytes + [b]), k) == Or(WordAt(Filled(bytes), k), ShiftedByte(b, |bytes| % 4))
  {
    hide BigEndian, Or, Shifted0, Shifted1, Shifted2, Shifted3;
    var n := |bytes|;
    var k, x, y := n / 4, Filled(bytes), Filled(bytes + [b]);
    assert y[n] == b && forall j :: 0 <= j < 64 && j != n ==> x[j] == y[j];
    assert forall j :: n <= j < 64 ==> x[j] == 0;
    if n % 4 == 0 {
      PlaceFirst(b);
    } else if n % 4 == 1 {
      PlaceSecond(x[4 * k], b);
    } else if n % 4 == 2 {
      PlaceThird(x[4 * k], x[4 * k + 1], b);
    } else {
      PlaceFourth(x[4 * k], x[4 * k + 1], x[4 * k + 2], b);
    }
  }

  /** Or-ing one more byte into its word is appending it to the filled bytes. */
  lemma FilledAppend(bytes: seq<Byte>, b: Byte)
    requires |bytes| < 64
    ensures var k := |bytes| / 4; var words := BlockWords(Filled(bytes));
            BlockWords(Filled(bytes + [b])) == words[k := Or(words[k], ShiftedByte(b, |bytes| % 4))]
  {
    hide BigEndian, Or, ShiftedByte;
    PlaceInWord(bytes, b);
    var n := |bytes|;
    var k, x, y := n / 4, Filled(bytes), Filled(bytes + [b]);
    forall i | 0 <= i < 16 && i != k
      ensures WordAt(x, i) == WordAt(y, i)
    {
      assert 4 * i + 4 <= n || n < 4 * i;
    }
  }

  lemma LastWord(bytes: seq<Byte>, w: Word)
    requires |bytes| <= 56
    ensures BlockWords(bytes + Zeros(60 - |bytes|) + WordBytes(w)) == BlockWords(Filled(bytes))[15 := w]
  {
    hide BigEndian, Byte0, Byte1, Byte2, Byte3;
    var x, y := Filled(bytes), bytes + Zeros(60 - |bytes|) + WordBytes(w);
    assert forall j :: 0 <= j < 60 ==> x[j] == y[j];
    assert y[60..] == WordBytes(w);
    WordBytesInverse(w);
    assert WordAt(y, 15) == WordAt(WordBytes(w), 0);
    assert forall i :: 0 <= i < 15 ==> WordAt(x, i) == WordAt(y, i);
  }

  /** The padded message the code hashes: its length field keeps the low 32 bits of the bit length only. */
  function CodePadded(msg: seq<Byte>): (p: seq<Byte>)
    ensures |p| % 64 == 0
  {
    msg + [0x80] + Zeros(ZeroCount(|msg|) + 4) + WordBytes(Uint32(8 * |msg| % 0x1_0000_0000))
  }

  lemma MiddleDecides<T>(front: seq<T>, x: seq<T>, y: seq<T>, back: seq<T>)
    requires |x| == |y|
    ensures front + x + back == front + y + back <==> x == y
  {
    var a, b := front + x + back, front + y + back;
    assert a[|front|..|front| + |x|] == x && b[|front|..|front| + |x|] == y;
  }

  lemma ZeroWordBytes(w: Word)
    ensures Zeros(4) == WordBytes(w) <==> w == 0
  {
    hide BigEndian, Byte0, Byte1, Byte2, Byte3;
    ZeroBytes();
    WordBytesInverse(w);
    if Zeros(4) == WordBytes(w) {
      assert WordBytes(w)[0] == WordBytes(w)[1] == WordBytes(w)[2] == WordBytes(w)[3] == 0;
    }
  }

  /** The code pads as the standard does exactly for messages shorter than 2^29 bytes. */
  lemma PaddingAgrees(msg: seq<Byte>)
    requires |msg| < 0x1_0000_0000
    ensures CodePadded(msg) == Padded(msg) <==> |msg| < 0x2000_0000
  {
    hide WordBytes, Uint32, ZeroCount;
    var len := |msg|;
    var hi, lo := Uint32(8 * len / 0x1_0000_0000), Uint32(8 * len % 0x1_0000_0000);
    var front := msg + [0x80] + Zeros(ZeroCount(len));
    assert Zeros(ZeroCount(len) + 4) == Zeros(ZeroCount(len)) + Zeros(4);
    assert CodePadded(msg) == front + Zeros(4) + WordBytes(lo);
    assert Padded(msg) == front + WordBytes(hi) + WordBytes(lo);
    MiddleDecides(front, Zeros(4), WordBytes(hi), WordBytes(lo));
    ZeroWordBytes(hi);
    Uint32Zero(8 * len / 0x1_0000_0000);
  }

  /** The shortest message that is padded differently. */
  lemma PaddingDiffers()
    ensures CodePadded(Zeros(0x2000_0000)) != Padded(Zeros(0x2000_0000))
  {
    PaddingAgrees(Zeros(0x2000_0000));
  }

  lemma HashOneMore(front: seq<Byte>, block: seq<Byte>)
    requires |front| % 64 == 0 && |block| == 64
    ensures HashBlocks(front + block) == Compress(HashBlocks(front), BlockWords(block))
  {
    assert (front + block)[..|front|] == front && (front + block)[|front|..] == block;
  }

  lemma ZeroCountTail(front: nat, rest: nat)
    requires front % 64 == 0 && rest < 64
    ensures ZeroCount(front + rest) == if rest < 56 then 55 - rest else 119 - rest
  {
    assert (front + rest) % 64 == rest;
  }

  lemma TailOneBlock(front: seq<Byte>, rest: seq<Byte>)
    requires |front| % 64 == 0 && |rest| < 56
    ensures HashBlocks(CodePadded(front + rest))
         == Compress(HashBlocks(front),
                     BlockWords(Filled(rest + [0x80]))[15 := Uint32(8 * |front + rest| % 0x1_0000_0000)])
  {
    hide WordBytes, Uint32, Compress, ZeroCount, BlockWords, HashBlocks;
    var w := Uint32(8 * |front + rest| % 0x1_0000_0000);
    var last := rest + [0x80] + Zeros(60 - |rest + [0x80]|) + WordBytes(w);
    ZeroCountTail(|front|, |rest|);
    assert CodePadded(front + rest) == front + last;
    LastWord(rest + [0x80], w);
    HashOneMore(front, last);
  }

  lemma TailTwoBlocks(front: seq<Byte>, rest: seq<Byte>)
    requires |front| % 64 == 0 && 56 <= |rest| < 64
    ensures HashBlocks(CodePadded(front + rest))
         == Compress(Compress(HashBlocks(front), BlockWords(Filled(rest + [0x80]))),
                     BlockWords(Filled([]))[15 := Uint32(8 * |front + rest| % 0x1_0000_0000)])
  {
    hide WordBytes, Uint32, Compress, ZeroCount, BlockWords, HashBlocks;
    var w := Uint32(8 * |front + rest| % 0x1_0000_0000);
    var next, last := Filled(rest + [0x80]), [] + Zeros(60) + WordBytes(w);
    ZeroCountTail(|front|, |rest|);
    assert Zeros(ZeroCount(|front + rest|) + 4) == Zeros(63 - |rest|) + Zeros(60);
    assert CodePadded(front + rest) == front + next + last;
    LastWord([], w);
    HashOneMore(front, next);
    HashOneMore(front + next, last);
  }

  method LoadBlock(data: seq<Byte>, block: nat, temp: array<Word>)
    requires block + 64 <= |data| && temp.Length == 80
    modifies temp
    ensures temp[..16] == BlockWords(data[block..block + 64])
  {
    var i := 0;
    while i < 16
      invariant i <= 16
      invariant forall j :: 0 <= j < i ==> temp[j] == WordAt(data[block..block + 64], j)
    {
      var at := block + 4 * i;
      temp[i] := BigEndian(data[at], data[at + 1], data[at + 2], data[at + 3]);
      i := i + 1;
    }
  }

  method ClearBlock(temp: array<Word>)
    requires temp.Length == 80
    modifies temp
    ensures temp[..16] == BlockWords(Filled([]))
  {
    for i := 0 to 16
      invariant forall j :: 0 <= j < i ==> temp[j] == 0
    {
      temp[i] := 0;
    }
    ZeroBytes();
  }

  method PlaceByte(temp: array<Word>, last: nat, b: Byte, ghost placed: seq<Byte>)
    requires temp.Length == 80 && last == |placed| < 64
    requires temp[..16] == BlockWords(Filled(placed))
    modifies temp
    ensures temp[..16] == BlockWords(Filled(placed + [b]))
  {
    FilledAppend(placed, b);
    ghost var was := temp[..16];
    temp[last / 4] := Or(temp[last / 4], ShiftedByte(b, last % 4));
    assert temp[..16] == was[last / 4 := Or(was[last / 4], ShiftedByte(b, last % 4))];
  }

  /** The bytes after the last whole block, and the end marker. */
  method LoadTail(data: seq<Byte>, block: nat, temp: array<Word>)
    requires block <= |data| < block + 64 && temp.Length == 80
    modifies temp
    ensures temp[..16] == BlockWords(Filled(data[block..] + [0x80]))
  {
    ClearBlock(temp);
    var end := |data| - block;
    var last := 0;
    while last < end
      invariant last <= end
      invariant temp[..16] == BlockWords(Filled(data[block..block + last]))
    {
      PlaceByte(temp, last, data[last + block], data[block..block + last]);
      assert data[block..block + last] + [data[last + block]] == data[block..block + (last + 1)];
      last := last + 1;
    }
    assert data[block..block + last] == data[block..];
    PlaceByte(temp, last, 0x80, data[block..]);
  }

  method StoreDigest(sha: array<Word>, dest: array<Byte>)
    requires sha.Length == 5 && dest.Length == 20
    modifies dest
    ensures dest[..] == Digest(Loaded(sha[..]))
  {
    var i := 19;
    while i >= 0
      invariant -1 <= i <= 19
      invariant forall j :: i < j < 20 ==> dest[j] == Digest(Loaded(sha[..]))[j]
    {
      dest[i] := ByteOf(sha[i / 4], i % 4);
      i := i - 1;
    }
  }

  /** Everything after the whole blocks. */
  method FinishHash(data: seq<Byte>, block: nat, sha: array<Word>, temp: array<Word>)
    requires sha.Length == 5 && temp.Length == 80 && sha != temp
    requires block <= |data| < block + 64 && block % 64 == 0
    requires Loaded(sha[..]) == HashBlocks(data[..block])
    modifies sha, temp
    ensures Loaded(sha[..]) == HashBlocks(CodePadded(data))
  {
    hide WordBytes, Uint32, Compress, ZeroCount, CodePadded, BlockWords, Filled, HashBlocks;
    ghost var front, rest := data[..block], data[block..];
    assert front + rest == data;
    var end := |data| - block;
    LoadTail(data, block, temp);
    if end >= 56 {
      TailTwoBlocks(front, rest);
      Sha1PartHash(sha, temp);
      ClearBlock(temp);
    } else {
      TailOneBlock(front, rest);
    }
    ghost var was := temp[..16];
    temp[15] := Uint32(8 * |data| % 0x1_0000_0000);
    assert temp[..16] == was[15 := Uint32(8 * |data| % 0x1_0000_0000)];
    Sha1PartHash(sha, temp);
  }

  // ----- for which lengths the loop over the blocks ends -----

  /** What the 32-bit counter makes of `block + 64`. */
  function EndOf(block: nat): nat {
    (block + 64) % 0x1_0000_0000
  }

  /** The counter after one more turn of the loop, whose inner loop goes up to the end only from below; none when the
      loop is over. */
  function NextBlock(block: nat, len: nat): Option<nat> {
    if EndOf(block) > len then None else if block < EndOf(block) then Some(EndOf(block)) else Some(block)
  }

  /** The counter after so many turns, for as long as the loop goes on. */
  function BlockAfter(turns: nat, len: nat): Option<nat> {
    if turns == 0 then Some(0)
    else
      var before := BlockAfter(turns - 1, len);
      if before.Some? then NextBlock(before.value, len) else None
  }

  lemma {:induction false} BlocksGoUp(turns: nat, len: nat)
    requires len < 0x1_0000_0000 && 64 * turns <= 0xFFFF_FFC0 && 64 * turns <= len
    ensures BlockAfter(turns, len) == Some(64 * turns)
  {
    if turns > 0 {
      BlocksGoUp(turns - 1, len);
    }
  }

  lemma {:induction false} BlocksStick(turns: nat, len: nat)
    requires 0xFFFF_FFC0 <= len < 0x1_0000_0000 && turns >= 0x3FF_FFFF
    ensures BlockAfter(turns, len) == Some(0xFFFF_FFC0)
    decreases turns
  {
    if turns == 0x3FF_FFFF {
      BlocksGoUp(turns, len);
    } else {
      BlocksStick(turns - 1, len);
    }
  }

  lemma {:induction false} BlockAfterStays(turns: nat, more: nat, len: nat)
    requires turns <= more && BlockAfter(turns, len) == None
    ensures BlockAfter(more, len) == None
  {
    if turns < more {
      BlockAfterStays(turns, more - 1, len);
    }
  }

  /** The loop over the whole blocks ends exactly for the lengths below 2^32 - 64: for longer ones the counter wraps
      and then stands still. */
  lemma EndsExactly(len: nat)
    requires len < 0x1_0000_0000
    ensures (exists turns :: BlockAfter(turns, len) == None) <==> len < 0xFFFF_FFC0
  {
    if len < 0xFFFF_FFC0 {
      var turns := len / 64;
      BlocksGoUp(turns, len);
      assert BlockAfter(turns + 1, len) == None;
    } else if turns :| BlockAfter(turns, len) == None {
      var more := if turns < 0x3FF_FFFF then 0x3FF_FFFF else turns;
      BlockAfterStays(turns, more, len);
      BlocksStick(more, len);
    }
  }

  /** For longer data the loop over the blocks does not end. */
  method HashSha1(data: seq<Byte>, dest: array<Byte>)
    requires |data| < 0xFFFF_FFC0 && dest.Length == 20
    modifies dest
    ensures dest[..] == Digest(HashBlocks(CodePadded(data)))
    ensures |data| < 0x2000_0000 ==> dest[..] == Sha1(data)
  {
    hide WordBytes, Uint32, Compress, ZeroCount;
    var temp := new Word[80];
    var sha := new Word[] [0x67452301, 0xefcdab89, 0x98badcfe, 0x10325476, 0xc3d2e1f0];
    var block := 0;
    while block + 64 <= |data|
      invariant block <= |data| && block % 64 == 0
      invariant Loaded(sha[..]) == HashBlocks(data[..block])
    {
      LoadBlock(data, block, temp);
      Sha1PartHash(sha, temp);
      HashOneMore(data[..block], data[block..block + 64]);
      assert data[..block] + data[block..block + 64] == data[..block + 64];
      block := block + 64;
    }
    FinishHash(data, block, sha, temp);
    StoreDigest(sha, dest);
    PaddingAgrees(data);
  }
}

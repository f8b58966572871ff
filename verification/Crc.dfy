/** CRC-16/CCITT-FALSE on words of sixteen bits, most significant first. */
module Crc {
  import opened Numerals
  import opened Base32

  type Word = s: seq<bool> | |s| == 16 witness [false, false, false, false, false, false, false, false, false, false, false, false, false, false, false, false]

  function Zeros(n: nat): (z: seq<bool>)
    ensures |z| == n && forall i :: 0 <= i < n ==> !z[i]
  {
    seq(n, _ => false)
  }

  /** 0x1021: bits 12, 5 and 0. */
  function Poly(): (w: Word)
    ensures forall i :: 0 <= i < 16 ==> (w[i] <==> i == 3 || i == 10 || i == 15)
  {
    seq(16, i => i == 3 || i == 10 || i == 15)
  }

  /** 0xFFFF. */
  function Ones(): (w: Word)
    ensures forall i :: 0 <= i < 16 ==> w[i]
  {
    seq(16, _ => true)
  }

  function Xor(a: Word, b: Word): (w: Word)
    ensures forall i :: 0 <= i < 16 ==> w[i] == (a[i] != b[i])
  {
    seq(16, i requires 0 <= i < 16 => a[i] != b[i])
  }

  /** One turn of the inner loop: shift left, and reduce when a one falls out. */
  function Shift(s: Word): (w: Word)
    ensures forall i :: 0 <= i < 16 ==> w[i] == ((if i < 15 then s[i + 1] else false) != (s[0] && Poly()[i]))
  {
    if s[0] then Xor(s[1..] + [false], Poly()) else s[1..] + [false]
  }

  function Shifts(s: Word, n: nat): Word
    decreases n
  {
    if n == 0 then s else Shifts(Shift(s), n - 1)
  }

  /** Bits in the top of a word. */
  function Top(bits: seq<bool>): (w: Word)
    requires |bits| <= 16
  {
    bits + Zeros(16 - |bits|)
  }

  /** The checksum as it is read off a division: one message bit enters per shift. */
  function Feed(s: Word, bits: seq<bool>): Word
    decreases |bits|
  {
    if bits == [] then s else Feed(Shift(s[0 := s[0] != bits[0]]), bits[1..])
  }

  /** The checksum of a byte string. */
  function Checksum(data: seq<Octet>): Word {
    Feed(Ones(), Spread(8, data))
  }

  // ---------------------------------------------------------------- the loop computes it

  lemma ShiftLinear(a: Word, b: Word)
    ensures Shift(Xor(a, b)) == Xor(Shift(a), Shift(b))
  {
  }

  /** Letting the first bit in and the others wait in the top of the word. */
  lemma PackStep(s: Word, bits: seq<bool>)
    requires 0 < |bits| <= 16
    ensures Shift(Xor(s, Top(bits))) == Xor(Shift(s[0 := s[0] != bits[0]]), Top(bits[1..]))
  {
    var rest := bits[1..];
    var u: Word := s[0 := s[0] != bits[0]];
    var down: Word := [false] + rest + Zeros(16 - |bits|);
    assert Xor(s, Top(bits)) == Xor(u, down);
    ShiftLinear(u, down);
    assert Shift(down) == Top(rest) by {
      assert down[1..] + [false] == Top(rest);
    }
  }

  /** Up to sixteen bits may enter at once. */
  lemma {:induction false} Pack(s: Word, bits: seq<bool>)
    requires |bits| <= 16
    ensures Feed(s, bits) == Shifts(Xor(s, Top(bits)), |bits|)
    decreases |bits|
  {
    hide Xor, Shift, Top;
    if bits == [] {
      NothingEnters(s);
    } else {
      Pack(Shift(s[0 := s[0] != bits[0]]), bits[1..]);
      PackStep(s, bits);
    }
  }

  lemma NothingEnters(s: Word)
    ensures Xor(s, Top([])) == s
  {
  }

  lemma {:induction false} FeedSplit(s: Word, a: seq<bool>, b: seq<bool>)
    ensures Feed(s, a + b) == Feed(Feed(s, a), b)
    decreases |a|
  {
    if a == [] {
      assert a + b == b;
    } else {
      assert (a + b)[1..] == a[1..] + b;
      FeedSplit(Shift(s[0 := s[0] != a[0]]), a[1..], b);
    }
  }

  method Crc16(data: seq<Octet>) returns (crc: Word)
    ensures crc == Checksum(data)
  {
    hide Xor, Shift, Top, Ones, Bits;
    crc := Ones();
    var i := 0;
    while i < |data|
      invariant i <= |data| && crc == Feed(Ones(), Spread(8, data[..i]))
    {
      ghost var before := crc;
      crc := Xor(crc, Top(Bits(8, data[i])));
      var k := 0;
      while k < 8
        invariant k <= 8 && Shifts(crc, 8 - k) == Shifts(Xor(before, Top(Bits(8, data[i]))), 8)
      {
        crc, k := Shift(crc), k + 1;
      }
      Pack(before, Bits(8, data[i]));
      assert data[..i + 1][..i] == data[..i];
      FeedSplit(Ones(), Spread(8, data[..i]), Bits(8, data[i]));
      i := i + 1;
    }
    assert data[..i] == data;
  }

  // ---------------------------------------------------------------- bursts

  /** A shift loses nothing: its last bit tells what fell out. */
  lemma ShiftInjective(a: Word, b: Word)
    ensures Shift(a) == Shift(b) <==> a == b
  {
    if Shift(a) == Shift(b) {
      assert a[0] == Shift(a)[15] == Shift(b)[15] == b[0];
      forall i | 0 < i < 16
        ensures a[i] == b[i]
      {
        assert Shift(a)[i - 1] == Shift(b)[i - 1];
      }
    }
  }

  lemma {:induction false} ShiftsInjective(a: Word, b: Word, n: nat)
    ensures Shifts(a, n) == Shifts(b, n) <==> a == b
    decreases n
  {
    if n > 0 {
      ShiftInjective(a, b);
      ShiftsInjective(Shift(a), Shift(b), n - 1);
    }
  }

  /** Different states stay different under the same message. */
  lemma {:induction false} FeedInjective(a: Word, b: Word, bits: seq<bool>)
    ensures Feed(a, bits) == Feed(b, bits) <==> a == b
    decreases |bits|
  {
    if bits != [] {
      var x: Word, y: Word := a[0 := a[0] != bits[0]], b[0 := b[0] != bits[0]];
      assert x == y <==> a == b by {
        if x == y {
          assert forall i :: 0 <= i < 16 ==> a[i] == b[i] by {
            forall i | 0 <= i < 16
              ensures a[i] == b[i]
            {
              assert x[i] == y[i];
            }
          }
        }
      }
      ShiftInjective(x, y);
      FeedInjective(Shift(x), Shift(y), bits[1..]);
    }
  }

  /** Sixteen bits or fewer, fed into one state, are told apart. */
  lemma FeedTellsApart(s: Word, a: seq<bool>, b: seq<bool>)
    requires |a| == |b| <= 16
    ensures Feed(s, a) == Feed(s, b) <==> a == b
  {
    Pack(s, a);
    Pack(s, b);
    ShiftsInjective(Xor(s, Top(a)), Xor(s, Top(b)), |a|);
    if Xor(s, Top(a)) == Xor(s, Top(b)) {
      forall i | 0 <= i < |a|
        ensures a[i] == b[i]
      {
        assert Xor(s, Top(a))[i] == Xor(s, Top(b))[i];
        assert Top(a)[i] == a[i] && Top(b)[i] == b[i];
      }
      assert a == b;
    }
  }

  /** Every change confined to sixteen consecutive bits changes the checksum. */
  lemma BurstDetected(s: Word, a: seq<bool>, b: seq<bool>, p: nat)
    requires |a| == |b| && forall i :: 0 <= i < |a| && !(p <= i < p + 16) ==> a[i] == b[i]
    ensures Feed(s, a) == Feed(s, b) <==> a == b
  {
    hide Feed;
    var lo := if p < |a| then p else |a|;
    var hi := if p + 16 < |a| then p + 16 else |a|;
    Split3(s, a, lo, hi);
    Split3(s, b, lo, hi);
    assert a[..lo] == b[..lo] && a[hi..] == b[hi..];
    var u := Feed(s, a[..lo]);
    FeedTellsApart(u, a[lo..hi], b[lo..hi]);
    FeedInjective(Feed(u, a[lo..hi]), Feed(u, b[lo..hi]), a[hi..]);
    SameParts(a, b, lo, hi);
  }

  lemma SameParts(a: seq<bool>, b: seq<bool>, lo: nat, hi: nat)
    requires |a| == |b| && lo <= hi <= |a| && a[..lo] == b[..lo] && a[hi..] == b[hi..]
    ensures a[lo..hi] == b[lo..hi] <==> a == b
  {
    assert a == a[..lo] + a[lo..hi] + a[hi..] && b == b[..lo] + b[lo..hi] + b[hi..];
  }

  lemma Split3(s: Word, a: seq<bool>, lo: nat, hi: nat)
    requires lo <= hi <= |a|
    ensures Feed(s, a) == Feed(Feed(Feed(s, a[..lo]), a[lo..hi]), a[hi..])
  {
    assert a == a[..hi] + a[hi..] && a[..hi] == a[..lo] + a[lo..hi];
    FeedSplit(s, a[..hi], a[hi..]);
    FeedSplit(s, a[..lo], a[lo..hi]);
  }
}

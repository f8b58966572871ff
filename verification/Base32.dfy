/** Regrouping bytes into 5-bit digits and back through a 32-bit register. */
module Base32 {
  import opened Basics
  import opened Numerals

  type Octet = n: nat | n < 256

  const WORD: nat := 0x1_0000_0000

  lemma Constants()
    ensures Pow2(5) == 32 && Pow2(8) == 256 && Pow2(32) == WORD
  {
    assert Pow2(5) == 32;
    assert Pow2(8) == 256;
    assert Pow2(16) == 0x1_0000 by {
      Pow2Sum(8, 8);
    }
    Pow2Sum(16, 16);
  }

  /** Reading a digit out of the register is reading it out of the whole number. */
  lemma RegisterDigit(v: nat, bits: nat)
    requires bits <= 8
    ensures Shr(v % WORD, bits) % 32 == Shr(v, bits) % 32
    ensures Shr(v % WORD, bits) % 256 == Shr(v, bits) % 256
  {
    Constants();
    ShrLow(v, bits, 32 - bits);
    Pow2Sum(5, 27 - bits);
    Pow2Sum(8, 24 - bits);
    LowBits(Shr(v, bits), Pow2(27 - bits));
    LowBits(Shr(v, bits), Pow2(24 - bits));
  }

  lemma DropWords(k: nat, r: nat)
    ensures (WORD * k + r) % WORD == r % WORD
  {
  }

  lemma ShiftIn(v: nat, buffer: nat, d: nat, k: nat)
    requires buffer == v % WORD && (k == 5 || k == 8) && d < Pow2(k)
    ensures (buffer * Pow2(k) + d) % WORD == (v * Pow2(k) + d) % WORD
  {
    Constants();
    hide Pow2;
    var q := Divide(v, WORD);
    if k == 5 {
      DropWords(32 * q, buffer * 32 + d);
      assert v * 32 + d == WORD * (32 * q) + (buffer * 32 + d);
    } else {
      DropWords(256 * q, buffer * 256 + d);
      assert v * 256 + d == WORD * (256 * q) + (buffer * 256 + d);
    }
  }

  lemma SmallQuotients(w: nat)
    ensures Shr(w, 1) == w / 2 && Shr(w, 2) == w / 4 && Shr(w, 3) == w / 8 && Shr(w, 4) == w / 16
    ensures Shr(w, 5) == w / 32 && Shr(w, 6) == w / 64 && Shr(w, 7) == w / 128 && Shr(w, 8) == w / 256
  {
    assert Shr(w, 0) == w;
    hide Shr;
    ShrHalves(w, 0);
    ShrHalves(w, 1);
    ShrHalves(w, 2);
    ShrHalves(w, 3);
    ShrHalves(w, 4);
    ShrHalves(w, 5);
    ShrHalves(w, 6);
    ShrHalves(w, 7);
  }

  /** Taking the top digit off the pending bits. */
  lemma TakeDigit(v: nat, bits: nat, k: nat)
    requires k == 5 || k == 8
    ensures Shr(v, bits) == Shr(v, bits + k) * Pow2(k) + Shr(v, bits) % Pow2(k)
  {
    Constants();
    hide Shr, Pow2;
    ShrShr(v, bits, k);
    SmallQuotients(Shr(v, bits));
  }

  /** Multiplying by p only moves the low part of a number past a factor c, where c * p is 32. */
  lemma MoveUp(v: nat, c: nat, p: nat)
    requires (c == 2 && p == 16) || (c == 4 && p == 8) || (c == 8 && p == 4) || (c == 16 && p == 2)
    ensures (v * p) % 32 == v % c * p && v / c * 32 + v % c * p == v * p
  {
    DropMultiple32(v / c, v % c * p);
    assert v * p == 32 * (v / c) + v % c * p;
  }

  lemma Drop2(k: nat, r: nat)
    ensures (2 * k + r) % 2 == r % 2
  {
  }

  lemma Drop4(k: nat, r: nat)
    ensures (4 * k + r) % 4 == r % 4
  {
  }

  lemma Drop8(k: nat, r: nat)
    ensures (8 * k + r) % 8 == r % 8
  {
  }

  lemma Drop16(k: nat, r: nat)
    ensures (16 * k + r) % 16 == r % 16
  {
  }

  lemma LowOfWord(v: nat, c: nat)
    requires c == 2 || c == 4 || c == 8 || c == 16
    ensures v % WORD % c == v % c
  {
    var q := Divide(v, WORD);
    if c == 2 {
      Drop2(0x8000_0000 * q, v % WORD);
    } else if c == 4 {
      Drop4(0x4000_0000 * q, v % WORD);
    } else if c == 8 {
      Drop8(0x2000_0000 * q, v % WORD);
    } else {
      Drop16(0x1000_0000 * q, v % WORD);
    }
  }

  /** The pending bits of the register, moved up to fill a last digit. */
  lemma LastPartial(v: nat, bits: nat)
    requires 0 < bits < 5
    ensures (v % WORD * Pow2(5 - bits)) % 32 == (v * Pow2(5 - bits)) % 32
    ensures Shr(v, bits) * 32 + (v * Pow2(5 - bits)) % 32 == v * Pow2(5 - bits)
  {
    var c := SmallShift(v, bits);
    LowOfWord(v, c);
    MoveUp(v, c, Pow2(5 - bits));
    MoveUp(v % WORD, c, Pow2(5 - bits));
  }

  lemma SmallShift(v: nat, bits: nat) returns (c: nat)
    requires 0 < bits < 5
    ensures (bits == 1 && c == 2 && Pow2(5 - bits) == 16) || (bits == 2 && c == 4 && Pow2(5 - bits) == 8)
         || (bits == 3 && c == 8 && Pow2(5 - bits) == 4) || (bits == 4 && c == 16 && Pow2(5 - bits) == 2)
    ensures Shr(v, bits) == v / c
  {
    assert Pow2(1) == 2 && Pow2(2) == 4 && Pow2(3) == 8 && Pow2(4) == 16;
    SmallQuotients(v);
    c := if bits == 1 then 2 else if bits == 2 then 4 else if bits == 3 then 8 else 16;
  }

  // ---------------------------------------------------------------- moving digits through the register

  /** A byte enters below the pending bits. */
  lemma PushByte(v: nat, buffer: nat, b: nat, bits: nat)
    requires buffer == v % WORD && b < 256
    ensures (buffer * 256 + b) % WORD == (v * 256 + b) % WORD && Shr(v * 256 + b, bits + 8) == Shr(v, bits)
  {
    Constants();
    hide Shr, Pow2;
    ShiftIn(v, buffer, b, 8);
    ShrAppend(v, b, 8);
    ShrShr(v * 256 + b, 8, bits);
  }

  lemma PushDigit(v: nat, buffer: nat, d: nat, bits: nat)
    requires buffer == v % WORD && d < 32
    ensures (buffer * 32 + d) % WORD == (v * 32 + d) % WORD && Shr(v * 32 + d, bits + 5) == Shr(v, bits)
  {
    Constants();
    hide Shr, Pow2;
    ShiftIn(v, buffer, d, 5);
    ShrAppend(v, d, 5);
    ShrShr(v * 32 + d, 5, bits);
  }

  /** A digit leaves above the bits that stay pending. */
  lemma PopDigit(v: nat, bits: nat)
    requires bits <= 8
    ensures Shr(v % WORD, bits) % 32 == Shr(v, bits) % 32 && Shr(v, bits) == Shr(v, bits + 5) * 32 + Shr(v, bits) % 32
  {
    Constants();
    hide Shr, Pow2;
    RegisterDigit(v, bits);
    TakeDigit(v, bits, 5);
  }

  lemma PopByte(v: nat, bits: nat)
    requires bits <= 8
    ensures Shr(v % WORD, bits) % 256 == Shr(v, bits) % 256 && Shr(v, bits) == Shr(v, bits + 8) * 256 + Shr(v, bits) % 256
  {
    Constants();
    hide Shr, Pow2;
    RegisterDigit(v, bits);
    TakeDigit(v, bits, 8);
  }

  /** How many zero bits follow the data in the last digit. */
  function Padding(n: nat): (p: nat)
    ensures p < 5
  {
    (5 - 8 * n % 5) % 5
  }

  lemma PaddingIs(n: nat, m: nat, bits: nat)
    requires 5 * m + bits == 8 * n && bits < 5
    ensures Padding(n) == if bits == 0 then 0 else 5 - bits
  {
  }

  /** Digits of a byte string. As a number, the digits are the bytes followed by the zero
      padding; nothing is lost although the register keeps only 32 bits. */
  method Encode(data: seq<Octet>) returns (out: seq<nat>)
    ensures Below(32, out) && 5 * |out| == 8 * |data| + Padding(|data|)
    ensures Value(32, out) == Value(256, data) * Pow2(Padding(|data|))
  {
    hide Value, Shr, Padding;
    var buffer, bits;
    out, buffer, bits := WholeDigits(data);
    PaddingIs(|data|, |out|, bits);
    NoShift(Value(256, data));
    if bits > 0 {
      LastPartial(Value(256, data), bits);
      ValueSnoc(32, out, (buffer * Pow2(5 - bits)) % 32);
      out := out + [(buffer * Pow2(5 - bits)) % 32];
    }
  }

  lemma NoShift(v: nat)
    ensures Shr(v, 0) == v == v * Pow2(0)
  {
  }

  /** All digits that need no padding; what is left stays in the register. */
  method WholeDigits(data: seq<Octet>) returns (out: seq<nat>, buffer: nat, bits: nat)
    ensures Below(32, out) && bits < 5 && 5 * |out| + bits == 8 * |data|
    ensures buffer == Value(256, data) % WORD && Value(32, out) == Shr(Value(256, data), bits)
  {
    assert data[..0] == [] && Value(256, []) == 0 && Shr(0, 0) == 0 && Value(32, []) == 0;
    hide Value, Shr;
    out, buffer, bits := [], 0, 0;
    var i := 0;
    while i < |data|
      invariant i <= |data| && bits < 5 && 5 * |out| + bits == 8 * i && Below(32, out)
      invariant buffer == Value(256, data[..i]) % WORD
      invariant Value(32, out) == Shr(Value(256, data[..i]), bits)
    {
      ghost var v := Value(256, data[..i]);
      assert data[..i + 1] == data[..i] + [data[i]];
      ValueSnoc(256, data[..i], data[i]);
      PushByte(v, buffer, data[i], bits);
      buffer, bits := (buffer * 256 + data[i]) % WORD, bits + 8;
      out, bits := Drain(out, buffer, bits, v * 256 + data[i]);
      i := i + 1;
    }
    assert data[..i] == data;
  }

  /** Emit digits while five bits are pending. */
  method Drain(from: seq<nat>, buffer: nat, pending: nat, ghost v: nat) returns (out: seq<nat>, bits: nat)
    requires Below(32, from) && buffer == v % WORD && pending <= 12 && Value(32, from) == Shr(v, pending)
    ensures Below(32, out) && bits < 5 && 5 * |out| + bits == 5 * |from| + pending && Value(32, out) == Shr(v, bits)
  {
    hide Value, Shr;
    out, bits := from, pending;
    while bits >= 5
      invariant Below(32, out) && bits <= 12 && 5 * |out| + bits == 5 * |from| + pending && Value(32, out) == Shr(v, bits)
    {
      bits := bits - 5;
      PopDigit(v, bits);
      ValueSnoc(32, out, Shr(buffer, bits) % 32);
      out := out + [Shr(buffer, bits) % 32];
    }
  }

  /** Bytes of a digit string; the bits that do not fill a byte are dropped. */
  method Decode(digits: seq<nat>) returns (out: seq<Octet>)
    requires Below(32, digits)
    ensures |out| == 5 * |digits| / 8
    ensures Value(256, out) == Shr(Value(32, digits), 5 * |digits| % 8)
  {
    out := [];
    var buffer, bits, i := 0, 0, 0;
    assert digits[..0] == [] && Value(32, []) == 0 && Shr(0, 0) == 0 && Value(256, []) == 0;
    hide Value, Shr, Pow2;
    while i < |digits|
      invariant i <= |digits| && bits < 8 && 8 * |out| + bits == 5 * i
      invariant buffer == Value(32, digits[..i]) % WORD
      invariant Value(256, out) == Shr(Value(32, digits[..i]), bits)
    {
      ghost var v := Value(32, digits[..i]);
      assert digits[..i + 1] == digits[..i] + [digits[i]];
      ValueSnoc(32, digits[..i], digits[i]);
      PushDigit(v, buffer, digits[i], bits);
      buffer, bits := (buffer * 32 + digits[i]) % WORD, bits + 5;
      if bits >= 8 {
        bits := bits - 8;
        PopByte(v * 32 + digits[i], bits);
        ValueSnoc(256, out, Shr(buffer, bits) % 256);
        out := out + [Shr(buffer, bits) % 256];
      }
      i := i + 1;
    }
    assert digits[..i] == digits;
  }

  /** Decoding is the inverse of encoding, whatever routines meet the two contracts. */
  lemma RoundTrip(data: seq<Octet>, digits: seq<nat>, back: seq<Octet>)
    requires Below(32, digits) && 5 * |digits| == 8 * |data| + Padding(|data|) && Value(32, digits) == Value(256, data) * Pow2(Padding(|data|))
    requires |back| == 5 * |digits| / 8 && Value(256, back) == Shr(Value(32, digits), 5 * |digits| % 8)
    ensures back == data
  {
    ShrAppend(Value(256, data), 0, Padding(|data|));
    ValueInjective(256, back, data);
  }
}

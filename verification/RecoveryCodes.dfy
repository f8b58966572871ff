/** Recovery codes as a person reads and types them: 160 bits in eight groups of four
    letters and a checksum group. */
module RecoveryCodes {
  import opened Basics
  import opened Numerals
  import opened Base32
  import opened Crc

  const ALPHABET: string := "0123456789ABCDEFGHJKMNPQRSTVWXYZ"

  type Code = s: seq<Octet> | |s| == 20 witness [0, 0, 0, 0, 0, 0, 0, 0, 0, 0, 0, 0, 0, 0, 0, 0, 0, 0, 0, 0]

  // ---------------------------------------------------------------- letters

  /** The position of a letter in the alphabet. */
  method Lookup(ch: char) returns (r: Option<nat>)
    ensures r == DigitOf(ch)
  {
    Alphabet();
    var i := 0;
    while i < |ALPHABET|
      invariant i <= |ALPHABET| && forall j :: 0 <= j < i ==> ALPHABET[j] != ch
    {
      if ALPHABET[i] == ch {
        return Some(i);
      }
      i := i + 1;
    }
    r := None;
  }

  ghost function DigitOf(ch: char): (r: Option<nat>)
    ensures r.Some? ==> r.value < 32
  {
    if exists i :: 0 <= i < 32 && ALPHABET[i] == ch then
      var i :| 0 <= i < 32 && ALPHABET[i] == ch;
      Some(i)
    else None
  }

  /** The alphabet is in character order, so no letter occurs twice. */
  lemma {:induction false} Ordered(i: nat, j: nat)
    requires i < j < 32
    ensures ALPHABET[i] < ALPHABET[j]
  {
    if i + 1 < j {
      Ordered(i, j - 1);
    }
    assert ALPHABET[j - 1] < ALPHABET[j];
  }

  lemma Alphabet()
    ensures forall i, j :: 0 <= i < 32 && 0 <= j < 32 && ALPHABET[i] == ALPHABET[j] ==> i == j
    ensures forall i :: 0 <= i < 32 ==> DigitOf(ALPHABET[i]) == Some(i)
  {
    forall i, j | 0 <= i < j < 32
      ensures ALPHABET[i] != ALPHABET[j]
    {
      Ordered(i, j);
    }
  }

  function Letter(d: nat): char
    requires d < 32
  {
    ALPHABET[d]
  }

  /** The letters of digits. */
  function Letters(ds: seq<nat>): (s: string)
    requires Below(32, ds)
    ensures |s| == |ds| && forall i :: 0 <= i < |ds| ==> s[i] == Letter(ds[i])
  {
    seq(|ds|, i requires 0 <= i < |ds| => Letter(ds[i]))
  }

  /** The digits a string of letters stands for. */
  ghost predicate Spells(s: string, ds: seq<nat>) {
    |s| == |ds| && forall i :: 0 <= i < |s| ==> DigitOf(s[i]) == Some(ds[i])
  }

  method Read(s: string) returns (r: Option<seq<nat>>)
    ensures r.Some? ==> Spells(s, r.value) && Below(32, r.value)
    ensures r.None? ==> forall ds: seq<nat> :: !Spells(s, ds)
  {
    var ds, i := [], 0;
    while i < |s|
      invariant i <= |s| && |ds| == i && Below(32, ds) && forall j :: 0 <= j < i ==> DigitOf(s[j]) == Some(ds[j])
    {
      var d := Lookup(s[i]);
      if d.None? {
        return None;
      }
      ds, i := ds + [d.value], i + 1;
    }
    r := Some(ds);
  }

  // ---------------------------------------------------------------- what a person may type

  predicate Separator(ch: char) {
    ch == '-' || ch == ' ' || ('\t' <= ch <= '\r')
  }

  function Upper(ch: char): char {
    if 'a' <= ch <= 'z' then ch - 'a' + 'A' else ch
  }

  /** Upper case, with the letters that look like digits read as digits. */
  function Fold(ch: char): char {
    var c := Upper(ch);
    if c == 'O' then '0' else if c == 'I' || c == 'L' then '1' else c
  }

  function Normal(s: string): string {
    if s == [] then []
    else Normal(s[..|s| - 1]) + if Separator(s[|s| - 1]) then [] else [Fold(s[|s| - 1])]
  }

  method Normalize(input: string) returns (norm: string)
    ensures norm == Normal(input)
  {
    norm := [];
    var i := 0;
    while i < |input|
      invariant i <= |input| && norm == Normal(input[..i])
    {
      assert input[..i + 1][..i] == input[..i];
      if !Separator(input[i]) {
        norm := norm + [Fold(input[i])];
      }
      i := i + 1;
    }
    assert input[..i] == input;
  }

  lemma {:induction false} NormalConcat(a: string, b: string)
    ensures Normal(a + b) == Normal(a) + Normal(b)
  {
    if b == [] {
      assert a + b == a;
    } else {
      var n := |b| - 1;
      assert (a + b)[..|a| + n] == a + b[..n];
      NormalConcat(a, b[..n]);
    }
  }

  /** The two cases of a letter, O and zero, and I, L and one read alike. */
  predicate ReadAlike(a: char, b: char) {
    || a == b
    || ('a' <= a <= 'z' && b == a - 'a' + 'A') || ('a' <= b <= 'z' && a == b - 'a' + 'A')
    || (a in "oO0" && b in "oO0")
    || (a in "iIlL1" && b in "iIlL1")
  }

  lemma FoldsIff(a: char, b: char)
    ensures Fold(a) == Fold(b) <==> ReadAlike(a, b)
    ensures ReadAlike(a, b) ==> (Separator(a) <==> Separator(b))
  {
    assert a in "oO0" <==> a == 'o' || a == 'O' || a == '0';
    assert b in "oO0" <==> b == 'o' || b == 'O' || b == '0';
    assert a in "iIlL1" <==> a == 'i' || a == 'I' || a == 'l' || a == 'L' || a == '1';
    assert b in "iIlL1" <==> b == 'i' || b == 'I' || b == 'l' || b == 'L' || b == '1';
  }

  /** Separators may be put anywhere, and a character may be replaced by another exactly if
      the two read alike. */
  lemma TypingIsForgiving(a: string, ch: char, other: char, b: string)
    ensures Separator(ch) ==> Normal(a + [ch] + b) == Normal(a + b)
    ensures !Separator(ch) && !Separator(other) ==> (Normal(a + [ch] + b) == Normal(a + [other] + b) <==> ReadAlike(ch, other))
  {
    FoldsIff(ch, other);
    hide Fold, Separator, ReadAlike;
    NormalConcat(a + [ch], b);
    NormalConcat(a, [ch]);
    NormalConcat(a, b);
    NormalConcat(a + [other], b);
    NormalConcat(a, [other]);
    assert [ch][..0] == [] && [other][..0] == [];
    if !Separator(ch) && !Separator(other) {
      var p, q := Normal(a), Normal(b);
      assert (p + [Fold(ch)] + q)[|p|] == Fold(ch) && (p + [Fold(other)] + q)[|p|] == Fold(other);
    }
  }

  lemma NormalSnoc(s: string, ch: char)
    ensures Normal(s + [ch]) == Normal(s) + if Separator(ch) then [] else [Fold(ch)]
  {
    assert (s + [ch])[..|s|] == s;
  }

  lemma LettersSnoc(ds: seq<nat>, d: nat)
    requires Below(32, ds) && d < 32
    ensures Letters(ds + [d]) == Letters(ds) + [Letter(d)]
  {
    hide Letter;
  }

  lemma {:induction false} LettersAreNormal(ds: seq<nat>)
    requires Below(32, ds)
    ensures Normal(Letters(ds)) == Letters(ds)
  {
    hide Fold, Separator, Letter, Letters, Normal;
    if ds == [] {
      NothingToRead();
    } else {
      var n := |ds| - 1;
      LettersAreNormal(ds[..n]);
      LetterFolds(ds[n]);
      LettersSnoc(ds[..n], ds[n]);
      NormalSnoc(Letters(ds[..n]), Letter(ds[n]));
      assert ds == ds[..n] + [ds[n]];
    }
  }

  lemma NothingToRead()
    ensures Normal([]) == [] && Letters([]) == []
  {
  }

  /** No letter of the alphabet lies where a look-alike would. */
  lemma LetterFolds(d: nat)
    requires d < 32
    ensures !Separator(Letter(d)) && Fold(Letter(d)) == Letter(d) && Letter(d) != '-'
  {
    Between(0, d, 31);
    if d <= 17 { Between(0, d, 17); } else { Between(18, d, 31); }
    if d <= 19 { Between(0, d, 19); } else { Between(20, d, 31); }
    if d <= 21 { Between(0, d, 21); } else { Between(22, d, 31); }
    assert ALPHABET[0] == '0' && ALPHABET[31] == 'Z' && ALPHABET[17] == 'H' && ALPHABET[18] == 'J';
    assert ALPHABET[19] == 'K' && ALPHABET[20] == 'M' && ALPHABET[21] == 'N' && ALPHABET[22] == 'P';
  }

  lemma Between(i: nat, d: nat, j: nat)
    requires i <= d <= j < 32
    ensures ALPHABET[i] <= ALPHABET[d] <= ALPHABET[j]
  {
    if i < d {
      Ordered(i, d);
    }
    if d < j {
      Ordered(d, j);
    }
  }

  // ---------------------------------------------------------------- codes

  /** The 32 payload digits are the code, regrouped. */
  ghost predicate Payload(ds: seq<nat>, code: Code) {
    |ds| == 32 && Below(32, ds) && Value(32, ds) == Value(256, code)
  }

  /** The top sixteen of the twenty checksum bits are the checksum. */
  ghost predicate Guards(cs: seq<nat>, code: Code) {
    |cs| == 4 && Below(32, cs) && Shr(Value(32, cs), 4) == Number(Checksum(code))
  }

  /** A normalized text that stands for a code. */
  ghost predicate Accepts(norm: string, ds: seq<nat>, cs: seq<nat>, code: Code) {
    Spells(norm, ds + cs) && Payload(ds, code) && Guards(cs, code)
  }

  lemma HalfWords(w: Word)
    ensures Number(w[..8]) < 256 && Number(w[8..]) < 256
    ensures Bits(8, Number(w[..8])) == w[..8] && Bits(8, Number(w[8..])) == w[8..]
    ensures Value(256, [Number(w[..8]), Number(w[8..])]) == Number(w)
  {
    Constants();
    NumberBound(w[..8]);
    NumberBound(w[8..]);
    BitsOfNumber(w[..8]);
    BitsOfNumber(w[8..]);
    NumberAppend(w[..8], 8, Number(w[8..]));
    assert w == w[..8] + w[8..];
    ValueSnoc(256, [], Number(w[..8]));
    ValueSnoc(256, [Number(w[..8])], Number(w[8..]));
    assert [] + [Number(w[..8])] == [Number(w[..8])];
    assert [Number(w[..8])] + [Number(w[8..])] == [Number(w[..8]), Number(w[8..])];
  }

  /** The two bytes of a checksum, high byte first. */
  method ToBytes(w: Word) returns (b: seq<Octet>)
    ensures |b| == 2 && Value(256, b) == Number(w)
  {
    HalfWords(w);
    b := [Number(w[..8]), Number(w[8..])];
  }

  method PayloadDigits(code: Code) returns (ds: seq<nat>)
    ensures Payload(ds, code)
  {
    ds := Encode(code);
    assert Pow2(0) == 1;
  }

  method CheckDigits(code: Code) returns (cs: seq<nat>)
    ensures Guards(cs, code)
  {
    var crc := Crc16(code);
    var bytes := ToBytes(crc);
    cs := Encode(bytes);
    ShrAppend(Number(crc), 0, 4);
  }

  predicate Hyphenated(s: string) {
    forall i :: 0 <= i < |s| ==> (s[i] == '-' <==> i % 5 == 4)
  }

  /** Eight groups of four letters and the checksum, with hyphens between. The text reads
      back as the code. */
  method Format(code: Code) returns (out: string, ghost ds: seq<nat>, ghost cs: seq<nat>)
    ensures Accepts(Normal(out), ds, cs, code) && Normal(out) == Letters(ds + cs)
    ensures |out| == 44 && Hyphenated(out)
  {
    hide Value, Shr, Checksum, Number, Spells, Normal, Letter, Letters;
    var payload := PayloadDigits(code);
    var check := CheckDigits(code);
    ds, cs := payload, check;
    out := Group(payload);
    Assembled(out, ds, cs);
    AssembledHyphens(out, cs);
    out := out + "-" + Letters(check);
  }

  lemma Assembled(out: string, ds: seq<nat>, cs: seq<nat>)
    requires Below(32, ds) && Below(32, cs) && Normal(out) == Letters(ds)
    ensures Normal(out + "-" + Letters(cs)) == Letters(ds + cs) && Spells(Letters(ds + cs), ds + cs)
  {
    LettersConcat(ds, cs);
    hide Normal, Spells, Letters;
    AppendSeparator(out);
    NormalConcat(out + "-", Letters(cs));
    LettersAreNormal(cs);
    LettersSpell(ds + cs);
  }

  lemma AssembledHyphens(out: string, cs: seq<nat>)
    requires Below(32, cs) && |cs| == 4 && |out| == 39 && Hyphenated(out)
    ensures Hyphenated(out + "-" + Letters(cs))
  {
    hide Hyphenated, Letters;
    HyphenateLast(out, '-');
    HyphensOnly(cs);
    HyphenatedConcat(out + "-", Letters(cs));
  }

  /** Where hyphens and letters fall when g groups are complete. */
  lemma Places(i: nat, g: nat)
    ensures i % 4 == 0 && 4 * g < i <= 4 * g + 4 ==> (i + g) % 5 == 4
    ensures 4 * g <= i < 4 * g + 4 ==> (i + g) % 5 != 4
  {
  }

  lemma LettersConcat(a: seq<nat>, b: seq<nat>)
    requires Below(32, a) && Below(32, b)
    ensures Letters(a) + Letters(b) == Letters(a + b)
  {
  }

  lemma AppendSeparator(s: string)
    ensures Normal(s + "-") == Normal(s)
  {
    NormalSnoc(s, '-');
  }

  lemma AppendLetter(s: string, ds: seq<nat>, i: nat)
    requires i < |ds| && Below(32, ds) && Normal(s) == Letters(ds[..i])
    ensures Normal(s + [Letter(ds[i])]) == Letters(ds[..i + 1]) && Letter(ds[i]) != '-'
  {
    hide Fold, Separator, Letter, Letters, Normal;
    LetterFolds(ds[i]);
    NormalSnoc(s, Letter(ds[i]));
    LettersSnoc(ds[..i], ds[i]);
    assert ds[..i + 1] == ds[..i] + [ds[i]];
  }

  lemma HyphenateLast(s: string, ch: char)
    requires Hyphenated(s) && (ch == '-' <==> |s| % 5 == 4)
    ensures Hyphenated(s + [ch])
  {
  }

  lemma HyphenatedConcat(a: string, b: string)
    requires Hyphenated(a) && Hyphenated(b) && |a| % 5 == 0
    ensures Hyphenated(a + b)
  {
    forall i | 0 <= i < |a + b|
      ensures (a + b)[i] == '-' <==> i % 5 == 4
    {
      if i >= |a| {
        assert (a + b)[i] == b[i - |a|];
      }
    }
  }

  lemma HyphensOnly(ds: seq<nat>)
    requires Below(32, ds)
    ensures (forall i :: 0 <= i < |ds| ==> Letters(ds)[i] != '-') && (|ds| <= 4 ==> Hyphenated(Letters(ds)))
  {
    hide Letter;
    forall i | 0 <= i < |ds|
      ensures Letters(ds)[i] != '-'
    {
      LetterFolds(ds[i]);
    }
  }

  lemma LettersSpell(ds: seq<nat>)
    requires Below(32, ds)
    ensures Spells(Letters(ds), ds)
  {
    Alphabet();
  }

  method Group(ds: seq<nat>) returns (out: string)
    requires |ds| == 32 && Below(32, ds)
    ensures Normal(out) == Letters(ds) && |out| == 39 && Hyphenated(out)
  {
    out := [];
    assert Normal(out) == Letters(ds[..0]);
    hide Normal, Hyphenated, Letters, Letter;
    var i := 0;
    ghost var groups := 0;
    while i < 32
      invariant i <= 32 && Normal(out) == Letters(ds[..i]) && Hyphenated(out)
      invariant |out| == i + groups && 4 * groups <= i <= 4 * groups + 4 && (i > 0 ==> 4 * groups < i)
    {
      Places(i, groups);
      Places(i, groups + 1);
      if i > 0 && i % 4 == 0 {
        AppendSeparator(out);
        HyphenateLast(out, '-');
        groups := groups + 1;
        out := out + ['-'];
      }
      AppendLetter(out, ds, i);
      HyphenateLast(out, Letter(ds[i]));
      out := out + [Letter(ds[i])];
      i := i + 1;
    }
    assert ds[..32] == ds;
  }

  /** Read a typed code. It succeeds exactly on texts that, separators and look-alikes
      aside, spell a payload and a checksum that guards it, and answers with that code. */
  method Parse(input: string) returns (r: Option<Code>)
    ensures r.Some? ==> exists ds, cs :: Accepts(Normal(input), ds, cs, r.value)
    ensures r.None? ==> forall ds, cs, code :: !Accepts(Normal(input), ds, cs, code)
  {
    var norm := Normalize(input);
    if |norm| != 36 {
      return None;
    }
    var ds := Read(norm[..32]);
    var cs := Read(norm[32..]);
    if ds.None? || cs.None? {
      SpellingSplits(norm);
      return None;
    }
    r := Check(norm, ds.value, cs.value);
  }

  lemma SpellingSplits(norm: string)
    requires |norm| == 36
    ensures forall ds, cs, code :: Accepts(norm, ds, cs, code) ==> Spells(norm[..32], ds) && Spells(norm[32..], cs)
  {
    forall ds, cs, code | Accepts(norm, ds, cs, code)
      ensures Spells(norm[..32], ds) && Spells(norm[32..], cs)
    {
      assert forall i :: 0 <= i < 32 ==> (ds + cs)[i] == ds[i];
      assert forall i :: 0 <= i < 4 ==> (ds + cs)[32 + i] == cs[i] && norm[32..][i] == norm[32 + i];
    }
  }

  lemma SpellsOnce(s: string, a: seq<nat>, b: seq<nat>)
    requires Spells(s, a) && Spells(s, b)
    ensures a == b
  {
    forall i | 0 <= i < |s|
      ensures a[i] == b[i]
    {
      assert DigitOf(s[i]) == Some(a[i]);
    }
  }

  method Check(norm: string, ds: seq<nat>, cs: seq<nat>) returns (r: Option<Code>)
    requires |norm| == 36 && Spells(norm[..32], ds) && Spells(norm[32..], cs) && Below(32, ds) && Below(32, cs)
    ensures r.Some? ==> Accepts(norm, ds, cs, r.value)
    ensures r.None? ==> forall es, fs, code :: !Accepts(norm, es, fs, code)
  {
    var code := Decode(ds);
    var check := Decode(cs);
    var crc := Crc16(code);
    var got := ToBytes(crc);
    assert Shr(Value(32, ds), 0) == Value(32, ds);
    assert norm == norm[..32] + norm[32..];
    if check != got {
      forall es, fs, other
        ensures !Accepts(norm, es, fs, other)
      {
        ChecksumDiffers(norm, ds, cs, code, check, got, es, fs, other);
      }
      return None;
    }
    r := Some(code);
  }

  lemma ChecksumDiffers(norm: string, ds: seq<nat>, cs: seq<nat>, code: Code, check: seq<Octet>, got: seq<Octet>,
                        es: seq<nat>, fs: seq<nat>, other: Code)
    requires |norm| == 36 && Spells(norm[..32], ds) && Spells(norm[32..], cs) && Payload(ds, code)
    requires |check| == 2 && Value(256, check) == Shr(Value(32, cs), 4) && |got| == 2 && Value(256, got) == Number(Checksum(code)) && check != got
    ensures !Accepts(norm, es, fs, other)
  {
    hide Value, Shr, Checksum, Number, DigitOf, Letters;
    if Accepts(norm, es, fs, other) {
      SpellingSplits(norm);
      SpellsOnce(norm[..32], ds, es);
      SpellsOnce(norm[32..], cs, fs);
      ValueInjective(256, code, other);
      ValueInjective(256, check, got);
      assert false;
    }
  }

  /** Every text that normalizes like a formatted code stands for that code and no other. */
  lemma OneCodePerText(norm: string, ds: seq<nat>, cs: seq<nat>, code: Code, es: seq<nat>, fs: seq<nat>, other: Code)
    requires Accepts(norm, ds, cs, code) && Accepts(norm, es, fs, other)
    ensures ds == es && cs == fs && code == other
  {
    SpellsOnce(norm, ds + cs, es + fs);
    assert (ds + cs)[..32] == ds && (es + fs)[..32] == es && (ds + cs)[32..] == cs && (es + fs)[32..] == fs;
    ValueInjective(256, code, other);
  }

  /** A text that differs from an accepted one only within three neighbouring payload
      letters, the checksum letters being the same, stands for no code at all. This covers
      one wrong letter and two neighbours swapped. */
  lemma TypoIsRejected(norm: string, ds: seq<nat>, cs: seq<nat>, code: Code, typed: string, from: nat, es: seq<nat>, fs: seq<nat>, other: Code)
    requires Accepts(norm, ds, cs, code) && |typed| == 36 && from <= 29 && typed != norm
    requires forall i :: 0 <= i < 36 && !(from <= i < from + 3) ==> typed[i] == norm[i]
    ensures !Accepts(typed, es, fs, other)
  {
    if Accepts(typed, es, fs, other) {
      SameOutside(norm, ds, cs, typed, es, fs, from);
      assert Checksum(code) == Checksum(other) by {
        NumberInjective(Checksum(code), Checksum(other));
      }
      BurstInCode(code, ds, other, es, from);
      SameSpelling(norm, typed, ds + cs, es + fs);
      assert false;
    }
  }

  lemma SameSpelling(a: string, b: string, ds: seq<nat>, es: seq<nat>)
    requires Spells(a, ds) && Spells(b, es)
    ensures ds == es <==> a == b
  {
    if ds == es {
      forall i | 0 <= i < |a|
        ensures a[i] == b[i]
      {
        assert DigitOf(a[i]) == DigitOf(b[i]) == Some(ds[i]);
      }
    } else if a == b {
      SpellsOnce(a, ds, es);
    }
  }

  lemma SameOutside(norm: string, ds: seq<nat>, cs: seq<nat>, typed: string, es: seq<nat>, fs: seq<nat>, from: nat)
    requires Spells(norm, ds + cs) && Spells(typed, es + fs) && |ds| == |es| == 32 && |cs| == |fs| == 4 && from <= 29
    requires forall i :: 0 <= i < 36 && !(from <= i < from + 3) ==> typed[i] == norm[i]
    ensures cs == fs && forall i :: 0 <= i < 32 && !(from <= i < from + 3) ==> ds[i] == es[i]
  {
    forall i | 0 <= i < 36 && !(from <= i < from + 3)
      ensures (ds + cs)[i] == (es + fs)[i]
    {
      assert DigitOf(norm[i]) == Some((ds + cs)[i]);
      assert DigitOf(typed[i]) == Some((es + fs)[i]);
    }
    assert forall i :: 0 <= i < 32 ==> (ds + cs)[i] == ds[i] && (es + fs)[i] == es[i];
    assert forall i :: 0 <= i < 4 ==> cs[i] == (ds + cs)[32 + i] && fs[i] == (es + fs)[32 + i];
  }

  /** Codes whose digits differ only within three neighbours have different checksums. */
  lemma BurstInCode(code: Code, ds: seq<nat>, other: Code, es: seq<nat>, from: nat)
    requires Payload(ds, code) && Payload(es, other) && forall i :: 0 <= i < 32 && !(from <= i < from + 3) ==> ds[i] == es[i]
    ensures Checksum(code) == Checksum(other) <==> ds == es
  {
    Constants();
    Regroup(8, code, 5, ds);
    Regroup(8, other, 5, es);
    SpreadAgrees(5, ds, es, from, from + 3);
    BurstDetected(Ones(), Spread(8, code), Spread(8, other), 5 * from);
    if Spread(5, ds) == Spread(5, es) {
      SpreadNumber(5, ds);
      SpreadNumber(5, es);
      ValueInjective(32, ds, es);
    }
  }
}

/**
 Cutting a text to a UTF-8 byte limit (`_truncate_utf8_bytes`): encode, slice the bytes, decode
 dropping what is undecodable, strip trailing whitespace. UTF-8 is that of section 3 of RFC 3629.
 */
module Utf8 {
  import opened Wrappers
  import opened Pcm

  /** A Python code point; a lone surrogate cannot be encoded. */
  type Code = c: nat | c <= 0x10FFFF witness 0

  predicate IsScalar(c: Code) { !(0xD800 <= c <= 0xDFFF) }

  function Encode(c: Code): (bytes: seq<Byte>)
    ensures 1 <= |bytes| <= 4
  {
    var high := c / 64;
    if c < 0x80 then [c]
    else if c < 0x800 then [0xC0 + high, 0x80 + c % 64]
    else if c < 0x1_0000 then [0xE0 + high / 64, 0x80 + high % 64, 0x80 + c % 64]
    else [0xF0 + high / 64 / 64, 0x80 + high / 64 % 64, 0x80 + high % 64, 0x80 + c % 64]
  }

  function EncodeAll(text: seq<Code>): seq<Byte> {
    if text == [] then [] else Encode(text[0]) + EncodeAll(text[1..])
  }

  predicate Continues(b: Byte) { 0x80 <= b < 0xC0 }

  /** The number a lead byte and its continuations spell; `lead` is the lead byte's own bits. */
  function Spell(lead: nat, rest: seq<Byte>): (r: int)
    requires forall b | b in rest :: Continues(b)
    ensures r >= 0
  {
    if rest == [] then lead
    else
      assert Continues(rest[|rest| - 1]);
      var low: int := rest[|rest| - 1];
      Spell(lead, rest[..|rest| - 1]) * 64 + (low - 0x80)
  }

  predicate Continued(s: seq<Byte>, n: nat) { |s| > n && forall b | b in s[1..n + 1] :: Continues(b) }

  /** The character that starts here, when a whole well-formed one does. */
  function DecodeOne(s: seq<Byte>): (r: Option<Code>)
    ensures r.Some? ==> IsScalar(r.value)
  {
    if s == [] then None
    else
      var lead: int := s[0];
      if lead < 0x80 then Some(lead)
      else if 0xC2 <= lead < 0xE0 && Continued(s, 1) then Within(Spell(lead - 0xC0, s[1..2]), 0x80, 0x7FF)
      else if 0xE0 <= lead < 0xF0 && Continued(s, 2) then Within(Spell(lead - 0xE0, s[1..3]), 0x800, 0xFFFF)
      else if 0xF0 <= lead < 0xF5 && Continued(s, 3) then Within(Spell(lead - 0xF0, s[1..4]), 0x1_0000, 0x10FFFF)
      else None
  }

  function Within(c: int, low: nat, high: nat): (r: Option<Code>)
    requires high <= 0x10FFFF
    ensures r.Some? ==> IsScalar(r.value) && low <= r.value <= high
  {
    if low <= c <= high && IsScalar(c) then Some(c) else None
  }

  lemma DecodeOneFits(s: seq<Byte>)
    ensures DecodeOne(s).Some? ==> |Encode(DecodeOne(s).value)| <= |s|
  {}

  /** Decoding with errors ignored: a byte at which no character starts is dropped. */
  function DecodeIgnoring(s: seq<Byte>): seq<Code>
    decreases |s|
  {
    if s == [] then []
    else
      DecodeOneFits(s);
      var c := DecodeOne(s);
      if c.Some? then [c.value] + DecodeIgnoring(s[|Encode(c.value)|..]) else DecodeIgnoring(s[1..])
  }

  function StripRight(text: seq<Code>, blank: Code -> bool): seq<Code> {
    if text != [] && blank(text[|text| - 1]) then StripRight(text[..|text| - 1], blank) else text
  }

  /** None is the encoding error a lone surrogate raises. */
  function Truncate(text: seq<Code>, maximum: nat, blank: Code -> bool): Option<seq<Code>> {
    if exists c :: c in text && !IsScalar(c) then None
    else
      var encoded := EncodeAll(text);
      if |encoded| <= maximum then Some(text) else Some(StripRight(DecodeIgnoring(encoded[..maximum]), blank))
  }

  // ----- the codec -----

  lemma SpellTwo(lead: nat, x: Byte)
    requires Continues(x)
    ensures Spell(lead, [x]) == lead * 64 + (x as int - 0x80)
  {
    assert [x][..0] == [];
  }

  lemma SpellThree(lead: nat, x: Byte, y: Byte)
    requires Continues(x) && Continues(y)
    ensures Spell(lead, [x, y]) == (lead * 64 + (x as int - 0x80)) * 64 + (y as int - 0x80)
  {
    assert [x, y][..1] == [x];
    SpellTwo(lead, x);
  }

  lemma SpellFour(lead: nat, x: Byte, y: Byte, z: Byte)
    requires Continues(x) && Continues(y) && Continues(z)
    ensures Spell(lead, [x, y, z]) == ((lead * 64 + (x as int - 0x80)) * 64 + (y as int - 0x80)) * 64 + (z as int - 0x80)
  {
    assert [x, y, z][..2] == [x, y];
    SpellThree(lead, x, y);
  }

  lemma DecodeOneInverts(c: Code, rest: seq<Byte>)
    requires IsScalar(c)
    ensures DecodeOne(Encode(c) + rest) == Some(c)
  {
    var s, code, high := Encode(c) + rest, Encode(c), c / 64;
    assert s[0] == code[0];
    if c < 0x80 { return; }
    hide Spell;
    if c < 0x800 {
      assert s[1..2] == [code[1]];
      SpellTwo(high, code[1]);
    } else if c < 0x1_0000 {
      assert s[1..3] == [code[1], code[2]];
      SpellThree(high / 64, code[1], code[2]);
    } else {
      assert s[1..4] == [code[1], code[2], code[3]];
      SpellFour(high / 64 / 64, code[1], code[2], code[3]);
    }
  }

  /** Decoding undoes encoding, and nothing is dropped from a whole text. */
  lemma {:induction false} DecodeUndoesEncode(text: seq<Code>, rest: seq<Byte>)
    requires forall c | c in text :: IsScalar(c)
    ensures DecodeIgnoring(EncodeAll(text) + rest) == text + DecodeIgnoring(rest)
  {
    hide Encode, DecodeOne;
    if text == [] {
      assert EncodeAll(text) + rest == rest;
    } else {
      var tail := EncodeAll(text[1..]) + rest;
      var s := Encode(text[0]) + tail;
      assert EncodeAll(text) + rest == s;
      DecodeOneInverts(text[0], tail);
      DecodeUndoesEncode(text[1..], rest);
      assert s[|Encode(text[0])|..] == tail;
    }
  }

  /** No character starts inside, or at the start of, the cut end of another. */
  lemma CutCharacterIsDropped(c: Code, n: nat)
    requires IsScalar(c) && n < |Encode(c)|
    ensures DecodeIgnoring(Encode(c)[..n]) == []
  {
    var s := Encode(c)[..n];
    if n == 0 { return; }
    assert DecodeOne(s).None?;
    if n == 1 { assert s[1..] == []; return; }
    ContinuationsAreDropped(s[1..]);
  }

  lemma {:induction false} ContinuationsAreDropped(s: seq<Byte>)
    requires forall b | b in s :: Continues(b)
    ensures DecodeIgnoring(s) == []
  {
    if s != [] {
      assert s[0] in s;
      ContinuationsAreDropped(s[1..]);
    }
  }

  // ----- the longest prefix that fits -----

  /** How many characters fit, counted one at a time. */
  function Fitting(text: seq<Code>, maximum: nat): nat {
    if text == [] || |Encode(text[0])| > maximum then 0 else 1 + Fitting(text[1..], maximum - |Encode(text[0])|)
  }

  lemma {:induction false} EncodeSplits(text: seq<Code>, k: nat)
    requires k <= |text|
    ensures EncodeAll(text) == EncodeAll(text[..k]) + EncodeAll(text[k..])
  {
    hide Encode;
    if k == 0 {
      assert text[..0] == [] && text[0..] == text;
    } else {
      EncodeSplits(text[1..], k - 1);
      assert text[..k][1..] == text[1..][..k - 1] && text[1..][k - 1..] == text[k..];
    }
  }

  lemma {:induction false} FittingIsLongest(text: seq<Code>, maximum: nat)
    ensures var k := Fitting(text, maximum);
      && k <= |text| && |EncodeAll(text[..k])| <= maximum
      && (k < |text| ==> |EncodeAll(text[..k])| + |Encode(text[k])| > maximum)
  {
    hide Encode;
    var k := Fitting(text, maximum);
    if text == [] || |Encode(text[0])| > maximum {
      assert text[..0] == [];
    } else {
      FittingIsLongest(text[1..], maximum - |Encode(text[0])|);
      assert text[..k][1..] == text[1..][..k - 1];
    }
  }

  lemma {:induction false} EncodeGrows(text: seq<Code>, j: nat, k: nat)
    requires j <= k <= |text|
    ensures |EncodeAll(text[..j])| <= |EncodeAll(text[..k])|
    ensures j < k ==> |EncodeAll(text[..j])| + |Encode(text[j])| <= |EncodeAll(text[..k])|
  {
    if j == 0 {
      assert text[..0] == [];
    } else {
      EncodeGrows(text[1..], j - 1, k - 1);
      assert text[..j][1..] == text[1..][..j - 1] && text[..k][1..] == text[1..][..k - 1];
    }
  }

  /**
   Before the final strip the result is the longest prefix of the text whose encoding fits the limit:
   a prefix fits exactly when it is no longer. All that is dropped is one incomplete character.
   */
  lemma SlicedTextIsLongestPrefix(text: seq<Code>, maximum: nat, j: nat)
    requires (forall c | c in text :: IsScalar(c)) && |EncodeAll(text)| > maximum && j <= |text|
    ensures var kept := DecodeIgnoring(EncodeAll(text)[..maximum]);
      && kept <= text && |kept| < |text|
      && (j <= |kept| <==> |EncodeAll(text[..j])| <= maximum)
      && |EncodeAll(kept)| <= maximum
      && var dropped := EncodeAll(text)[|EncodeAll(kept)|..maximum];
         |dropped| < |Encode(text[|kept|])| && dropped <= Encode(text[|kept|])
  {
    var k := Fitting(text, maximum);
    FittingIsLongest(text, maximum);
    EncodeSplits(text, k);
    assert text[..|text|] == text;
    var n := maximum - |EncodeAll(text[..k])|;
    assert EncodeAll(text[k..]) == Encode(text[k]) + EncodeAll(text[k..][1..]);
    assert EncodeAll(text)[..maximum] == EncodeAll(text[..k]) + Encode(text[k])[..n];
    CutCharacterIsDropped(text[k], n);
    DecodeUndoesEncode(text[..k], Encode(text[k])[..n]);
    assert text[..k] + [] == text[..k];
    if j <= k { EncodeGrows(text, j, k); } else { EncodeGrows(text, k, j); }
  }

  lemma {:induction false} StripRightIsPrefix(text: seq<Code>, blank: Code -> bool)
    ensures var r := StripRight(text, blank);
      && r <= text && (r != [] ==> !blank(r[|r| - 1])) && forall c | c in text[|r|..] :: blank(c)
  {
    if text != [] && blank(text[|text| - 1]) {
      StripRightIsPrefix(text[..|text| - 1], blank);
      var r := StripRight(text, blank);
      assert text[|r|..] == text[..|text| - 1][|r|..] + [text[|text| - 1]];
    }
  }

  lemma EncodePrefix(text: seq<Code>, n: nat)
    requires n <= |text|
    ensures |EncodeAll(text[..n])| <= |EncodeAll(text)|
  {
    EncodeGrows(text, n, |text|);
    assert text[..|text|] == text;
  }

  /** The result is a prefix of the text that fits the limit, and the text itself when that fits. */
  lemma TruncatedFits(text: seq<Code>, maximum: nat, blank: Code -> bool)
    ensures Truncate(text, maximum, blank).None? <==> exists c :: c in text && !IsScalar(c)
    ensures var r := Truncate(text, maximum, blank);
      r.Some? ==> r.value <= text && |EncodeAll(r.value)| <= maximum && (|EncodeAll(text)| <= maximum ==> r.value == text)
  {
    if (exists c :: c in text && !IsScalar(c)) || |EncodeAll(text)| <= maximum { return; }
    var kept := DecodeIgnoring(EncodeAll(text)[..maximum]);
    SlicedTextIsLongestPrefix(text, maximum, 0);
    SlicedTextIsLongestPrefix(text, maximum, |kept|);
    assert kept == text[..|kept|];
    StripRightIsPrefix(kept, blank);
    var r := StripRight(kept, blank);
    EncodePrefix(kept, |r|);
    assert kept[..|r|] == r;
  }

  /** The first `k` characters are the most that fit the limit. */
  ghost predicate LongestPrefix(text: seq<Code>, maximum: nat, k: nat) {
    && k <= |text| && |EncodeAll(text[..k])| <= maximum
    && forall j: nat | k < j <= |text| :: |EncodeAll(text[..j])| > maximum
  }

  /** The text less its trailing blanks. */
  ghost predicate LessTrailing(r: seq<Code>, whole: seq<Code>, blank: Code -> bool) {
    r <= whole && (forall c | c in whole[|r|..] :: blank(c)) && (r != [] ==> !blank(r[|r| - 1]))
  }

  lemma OnePrefixIsLongest(text: seq<Code>, maximum: nat)
    ensures LongestPrefix(text, maximum, Fitting(text, maximum))
    ensures forall k: nat | LongestPrefix(text, maximum, k) :: k == Fitting(text, maximum)
  {
    var k := Fitting(text, maximum);
    FittingIsLongest(text, maximum);
    hide EncodeAll, Fitting, Encode;
    forall j: nat | j <= |text| ensures |EncodeAll(text[..j])| <= maximum <==> j <= k {
      if j <= k { EncodeGrows(text, j, k); } else { EncodeGrows(text, k, j); }
    }
  }

  /**
   A text that can be encoded is cut to the longest of its prefixes that fit, less that prefix's trailing blanks; a
   text that fits whole is left as it is, blanks and all.
   */
  lemma TruncateIsExact(text: seq<Code>, maximum: nat, blank: Code -> bool, k: nat)
    requires (forall c | c in text :: IsScalar(c)) && LongestPrefix(text, maximum, k)
    ensures var r := Truncate(text, maximum, blank);
      && r.Some?
      && (if k == |text| then r.value == text else LessTrailing(r.value, text[..k], blank))
  {
    assert text[..|text|] == text;
    if |EncodeAll(text)| <= maximum { return; }
    var kept := DecodeIgnoring(EncodeAll(text)[..maximum]);
    hide EncodeAll, DecodeIgnoring, StripRight;
    SlicedTextIsLongestPrefix(text, maximum, k);
    SlicedTextIsLongestPrefix(text, maximum, |kept|);
    assert kept == text[..|kept|];
    assert |kept| == k;
    StripRightIsPrefix(kept, blank);
  }
}

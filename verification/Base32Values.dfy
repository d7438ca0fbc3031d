/** What an encoding is worth: read as numbers, secret and text agree; and which texts the decoder takes. */
module Base32Values {
  import opened Base32
  import opened Common

  // ----- numbers -----

  /** The number a sequence of groups writes in the given base, most significant first. */
  function Number(groups: seq<nat>, base: nat): nat {
    if groups == [] then 0 else Number(groups[..|groups| - 1], base) * base + groups[|groups| - 1]
  }

  lemma ValuePush(bits: seq<bool>, bit: bool)
    ensures ValueOf(bits + [bit]) == 2 * ValueOf(bits) + if bit then 1 else 0
  {
    assert (bits + [bit])[..|bits|] == bits;
  }

  lemma OnePlaceUp(v: nat, p: nat, g: nat)
    ensures 2 * (v * p + g / 2) + (if g % 2 == 1 then 1 else 0) == v * (2 * p) + g
  {
    assert 2 * (v * p) == v * (2 * p);
  }

  /** Bits followed by the low bits of a number. */
  lemma {:induction false} ValueAppend(bits: seq<bool>, g: nat, k: nat)
    requires g < Pow2(k)
    ensures ValueOf(bits + LowBits(g, k)) == ValueOf(bits) * Pow2(k) + g
  {
    if k == 0 {
      assert bits + LowBits(g, 0) == bits;
    } else {
      var front := LowBits(g / 2, k - 1);
      ValueAppend(bits, g / 2, k - 1);
      assert bits + LowBits(g, k) == (bits + front) + [g % 2 == 1];
      ValuePush(bits + front, g % 2 == 1);
      OnePlaceUp(ValueOf(bits), Pow2(k - 1), g);
    }
  }

  lemma {:induction false} ValueOfGroups(groups: seq<nat>, k: nat)
    requires Fit(groups, k)
    ensures ValueOf(Bits(groups, k)) == Number(groups, Pow2(k))
    decreases |groups|
  {
    if groups != [] {
      var n := |groups| - 1;
      assert groups == groups[..n] + [groups[n]];
      BitsPush(groups[..n], groups[n], k);
      ValueOfGroups(groups[..n], k);
      ValueAppend(Bits(groups[..n], k), groups[n], k);
    }
  }

  lemma {:induction false} ZerosAreLowBits(n: nat)
    ensures LowBits(0, n) == Zeros(n)
  {
    if n > 0 {
      ZerosAreLowBits(n - 1);
    }
  }

  /** The digits of a secret write the number its bytes write, moved up by the bits that fill the last digit. */
  lemma EncodedIsNumber(bytes: seq<Byte>)
    ensures var pad := 5 * |DigitsOf(bytes)| - 8 * |bytes|;
            0 <= pad < 5 && Number(DigitsOf(bytes), 32) == Number(bytes, 256) * Pow2(pad)
  {
    var pad := GroupsFit(Bits(bytes, 8), 5);
    PowSmall();
    var digits := DigitsOf(bytes);
    BitsLength(bytes, 8);
    BitsLength(digits, 5);
    assert |Bits(digits, 5)| == |Bits(bytes, 8) + Zeros(pad)|;
    ValueOfGroups(digits, 5);
    ValueOfGroups(bytes, 8);
    ZerosAreLowBits(pad);
    ValueAppend(Bits(bytes, 8), 0, pad);
  }

  lemma {:induction false} WholeGroupsRest(bits: seq<bool>, k: nat) returns (tail: seq<bool>)
    requires k > 0
    ensures Fit(WholeGroups(bits, k), k) && |tail| < k
    ensures Bits(WholeGroups(bits, k), k) + tail == bits
    decreases |bits|
  {
    if |bits| < k {
      tail := bits;
      assert [] + tail == bits;
    } else {
      tail := WholeGroupsRest(bits[k..], k);
      GroupThenRest(bits, WholeGroups(bits[k..], k), k, tail);
    }
  }

  lemma GroupThenRest(bits: seq<bool>, rest: seq<nat>, k: nat, tail: seq<bool>)
    requires k <= |bits| && Fit(rest, k) && Bits(rest, k) + tail == bits[k..]
    ensures Fit([ValueOf(bits[..k])] + rest, k)
    ensures Bits([ValueOf(bits[..k])] + rest, k) + tail == bits
  {
    LowBitsOfValue(bits[..k]);
    FitCons(ValueOf(bits[..k]), rest, k);
    assert bits == bits[..k] + (Bits(rest, k) + tail);
  }

  /**
   The bytes of a text write the number its digits write, less the few bits, fewer than eight,
   that make no whole byte.
   */
  lemma DecodedIsNumber(text: string) returns (dropped: nat)
    requires IsBase32(Cleaned(text))
    ensures var digits, bytes := Indexes(Cleaned(text)), Decoded(text).value;
            var rest := 5 * |digits| - 8 * |bytes|;
            && 0 <= rest < 8 && dropped < Pow2(rest)
            && Number(digits, 32) == Number(bytes, 256) * Pow2(rest) + dropped
  {
    var digits, bytes := Indexes(Cleaned(text)), Decoded(text).value;
    var tail := WholeGroupsRest(Bits(digits, 5), 8);
    PowSmall();
    BitsLength(digits, 5);
    BitsLength(bytes, 8);
    assert |Bits(bytes, 8) + tail| == |Bits(digits, 5)|;
    ValueOfGroups(digits, 5);
    ValueOfGroups(bytes, 8);
    LowBitsOfValue(tail);
    dropped := ValueOf(tail);
    ValueAppend(Bits(bytes, 8), dropped, |tail|);
  }

  // ----- what the decoder takes -----

  /** The character means nothing to the decoder, or letters of the alphabet only. */
  predicate Readable(c: char) {
    IsSpace(c) || forall i :: 0 <= i < |Upper(c)| ==> Upper(c)[i] in ALPHABET
  }

  lemma LetterBefore(c: char, rest: string)
    ensures IsBase32([c] + rest) <==> PlaceOf(c) >= 0 && IsBase32(rest)
  {
    var all := [c] + rest;
    if IsBase32(all) {
      assert PlaceOf(all[0]) >= 0;
      assert forall i :: 0 <= i < |rest| ==> rest[i] == all[i + 1];
    }
  }

  lemma {:induction false} StrippedReads(text: string)
    ensures IsBase32(WithoutSpaces(text)) <==> forall i :: 0 <= i < |text| ==> IsSpace(text[i]) || PlaceOf(text[i]) >= 0
    decreases |text|
  {
    if text != [] {
      StrippedReads(text[1..]);
      var rest := WithoutSpaces(text[1..]);
      if !IsSpace(text[0]) {
        LetterBefore(text[0], rest);
      }
      assert forall i :: 0 <= i < |text[1..]| ==> text[1..][i] == text[i + 1];
    }
  }

  /** The spaces and letters of a text without padding at its end. */
  ghost predicate AllReadable(text: string) {
    forall i :: 0 <= i < |text| ==> Readable(text[i])
  }

  ghost predicate AllTaken(text: string) {
    forall i :: 0 <= i < |text| ==> IsSpace(text[i]) || PlaceOf(text[i]) >= 0
  }

  lemma AllTakenConcat(a: string, b: string)
    ensures AllTaken(a + b) <==> AllTaken(a) && AllTaken(b)
  {
    if AllTaken(a + b) {
      assert forall i :: 0 <= i < |a| ==> a[i] == (a + b)[i];
      assert forall i :: 0 <= i < |b| ==> b[i] == (a + b)[|a| + i];
    }
  }

  lemma AllReadableTail(text: string)
    requires text != []
    ensures AllReadable(text) <==> Readable(text[0]) && AllReadable(text[1..])
  {
    if AllReadable(text) {
      assert forall i :: 0 <= i < |text[1..]| ==> text[1..][i] == text[i + 1];
    } else if Readable(text[0]) {
      var i :| 0 <= i < |text| && !Readable(text[i]);
      assert text[1..][i - 1] == text[i];
    }
  }

  lemma UpperTaken(c: char)
    ensures AllTaken(Upper(c)) <==> Readable(c)
  {
    forall d
      ensures PlaceOf(d) >= 0 <==> d in ALPHABET
    {
      AlphabetRead(0, d);
    }
    assert IsSpace(c) ==> Upper(c) == [c];
  }

  lemma {:induction false} RaisedTaken(text: string)
    ensures AllTaken(UpperCase(text)) <==> AllReadable(text)
    decreases |text|
  {
    if text != [] {
      RaisedTaken(text[1..]);
      UpperTaken(text[0]);
      AllTakenConcat(Upper(text[0]), UpperCase(text[1..]));
      AllReadableTail(text);
    }
  }

  /**
   Which texts decode: some padding at the end, and before it only white space and letters of the
   alphabet in either case (or characters whose upper case is made of them).
   */
  lemma DecodesExactly(text: string, pad: nat)
    requires text != [] ==> text[|text| - 1] != '='
    ensures Decoded(text + seq(pad, _ => '=')).Some? <==> AllReadable(text)
  {
    PaddingIgnored(text, pad);
    NoPaddingAtEnd(text);
    StrippedReads(UpperCase(text));
    RaisedTaken(text);
  }

  lemma UpperIsNoPadding(c: char)
    requires c != '='
    ensures Upper(c) != [] && Upper(c)[|Upper(c)| - 1] != '='
  {
  }

  lemma NothingPadded(front: string, end: string)
    requires end != [] && end[|end| - 1] != '='
    ensures WithoutPadding(front + end) == front + end
  {
    assert (front + end)[|front + end| - 1] == end[|end| - 1];
  }

  lemma UpperCaseOne(c: char)
    ensures UpperCase([c]) == Upper(c)
  {
    assert [c][1..] == [];
    assert UpperCase([c][1..]) == [];
    assert Upper(c) + [] == Upper(c);
  }

  lemma LastRaised(text: string, front: string, c: char)
    requires text == front + [c] && c != '='
    ensures WithoutPadding(UpperCase(text)) == UpperCase(text)
  {
    UpperIsNoPadding(c);
    NothingPadded(UpperCase(front), Upper(c));
    RaisedLast(front, c);
  }

  lemma RaisedLast(front: string, c: char)
    ensures UpperCase(front + [c]) == UpperCase(front) + Upper(c)
  {
    UpperCaseConcat(front, [c]);
    UpperCaseOne(c);
  }

  lemma NoPaddingAtEnd(text: string)
    requires text != [] ==> text[|text| - 1] != '='
    ensures WithoutPadding(UpperCase(text)) == UpperCase(text)
  {
    if text != [] {
      LastOf(text);
      LastRaised(text, text[..|text| - 1], text[|text| - 1]);
    }
  }

  lemma LastOf(text: string)
    requires text != []
    ensures text == text[..|text| - 1] + [text[|text| - 1]]
  {
  }

  /** Decoding looks at the upper case alone. */
  lemma SameUpperCase(a: string, b: string)
    requires UpperCase(a) == UpperCase(b)
    ensures Decoded(a) == Decoded(b)
  {
  }

  lemma CapitalOf(c: char)
    requires 'a' <= c <= 'z'
    ensures Upper((c as int - 'a' as int + 'A' as int) as char) == Upper(c)
  {
  }

  lemma SameUpperAt(front: string, c: char, d: char, rest: string)
    requires Upper(c) == Upper(d)
    ensures UpperCase(front + [c] + rest) == UpperCase(front + [d] + rest)
  {
    RaisedLast(front, c);
    RaisedLast(front, d);
    UpperCaseConcat(front + [c], rest);
    UpperCaseConcat(front + [d], rest);
  }

  /** A small letter anywhere is read as the capital. */
  lemma CaseIgnored(front: string, c: char, rest: string)
    requires 'a' <= c <= 'z'
    ensures Decoded(front + [c] + rest) == Decoded(front + [(c as int - 'a' as int + 'A' as int) as char] + rest)
  {
    var capital := (c as int - 'a' as int + 'A' as int) as char;
    CapitalOf(c);
    SameUpperAt(front, c, capital, rest);
    SameUpperCase(front + [c] + rest, front + [capital] + rest);
  }

  lemma {:induction false} WithoutSpacesConcat(a: string, b: string)
    ensures WithoutSpaces(a + b) == WithoutSpaces(a) + WithoutSpaces(b)
    decreases |a|
  {
    if a == [] {
      assert a + b == b;
      assert [] + WithoutSpaces(b) == WithoutSpaces(b);
    } else {
      WithoutSpacesConcat(a[1..], b);
      assert (a + b)[0] == a[0] && (a + b)[1..] == a[1..] + b;
      Regroup([a[0]], WithoutSpaces(a[1..]), WithoutSpaces(b));
    }
  }

  lemma Regroup(a: string, b: string, c: string)
    ensures a + (b + c) == (a + b) + c
  {
  }

  lemma BlankDropped(c: char)
    requires c == ' ' || c == '\t' || c == '\n' || c == '\r'
    ensures Upper(c) == [c] && WithoutSpaces([c]) == []
  {
    assert [c][1..] == [];
  }

  /** A text whose end is no padding is cleaned piece by piece. */
  lemma CleanedInParts(front: string, rest: string)
    requires rest != [] && rest[|rest| - 1] != '='
    ensures Cleaned(front + rest) == WithoutSpaces(UpperCase(front)) + WithoutSpaces(UpperCase(rest))
  {
    assert (front + rest)[|front + rest| - 1] == rest[|rest| - 1];
    NoPaddingAtEnd(front + rest);
    UpperCaseConcat(front, rest);
    WithoutSpacesConcat(UpperCase(front), UpperCase(rest));
  }

  lemma BlankAtEnd(front: string, c: char)
    requires c == ' ' || c == '\t' || c == '\n' || c == '\r'
    ensures WithoutSpaces(UpperCase(front + [c])) == WithoutSpaces(UpperCase(front))
  {
    RaisedLast(front, c);
    BlankDropped(c);
    WithoutSpacesConcat(UpperCase(front), [c]);
  }

  /** A blank, a tab or a line end anywhere before the padding is skipped. */
  lemma BlankIgnored(front: string, c: char, rest: string)
    requires c == ' ' || c == '\t' || c == '\n' || c == '\r'
    requires rest != [] && rest[|rest| - 1] != '='
    ensures Decoded(front + [c] + rest) == Decoded(front + rest)
  {
    BlankAtEnd(front, c);
    CleanedInParts(front + [c], rest);
    CleanedInParts(front, rest);
    SameCleaned(front + [c] + rest, front + rest);
  }

  lemma SameCleaned(a: string, b: string)
    requires Cleaned(a) == Cleaned(b)
    ensures Decoded(a) == Decoded(b)
  {
  }
}

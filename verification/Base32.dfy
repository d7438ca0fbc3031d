/**
 Base32 as the authenticator secrets use it (section 6 of RFC 4648, unpadded). The
 accumulators are the source's 32-bit integers, kept here as their unsigned values: a left
 shift multiplies and wraps, an or adds into the zeros the shift made, and only the low bits
 are ever read.
 */
module Base32 {
  import opened Common

  type Byte = b: int | 0 <= b < 256

  type Digit = d: int | 0 <= d < 32

  const ALPHABET: string := "ABCDEFGHIJKLMNOPQRSTUVWXYZ234567"

  const WORD := 0x1_0000_0000

  /** `<<` on 32 bits: every place doubles the number, and what leaves the word is lost. */
  function ShiftLeft(v: nat, k: nat): nat {
    if k == 0 then v else (2 * ShiftLeft(v, k - 1)) % WORD
  }

  /** `>>>`: every place halves the number. */
  function ShiftRight(v: nat, k: nat): nat {
    if k == 0 then v else ShiftRight(v / 2, k - 1)
  }

  // ----- bit strings -----

  /** The low `n` bits of a number, most significant first. */
  function LowBits(v: nat, n: nat): (bits: seq<bool>)
    ensures |bits| == n
  {
    if n == 0 then [] else LowBits(v / 2, n - 1) + [v % 2 == 1]
  }

  /** The bits of a sequence of `k`-bit groups. */
  function Bits(groups: seq<nat>, k: nat): seq<bool> {
    if groups == [] then [] else LowBits(groups[0], k) + Bits(groups[1..], k)
  }

  function ValueOf(bits: seq<bool>): nat {
    if bits == [] then 0 else 2 * ValueOf(bits[..|bits| - 1]) + if bits[|bits| - 1] then 1 else 0
  }

  function Zeros(n: nat): seq<bool> {
    seq(n, _ => false)
  }

  // ----- what the low bits depend on -----

  /** `%` by a power of two is a mask of low bits. */
  lemma {:induction false} LowBitsOfRemainder(x: nat, d: nat, m: nat, n: nat)
    requires n <= m && d == Pow2(m)
    ensures LowBits(x % d, n) == LowBits(x, n)
  {
    if n > 0 {
      HalvedRemainder(x, Pow2(m - 1));
      LowBitsOfRemainder(x / 2, Pow2(m - 1), m - 1, n - 1);
    }
  }

  lemma HalvedRemainder(x: nat, p: nat)
    requires p > 0
    ensures x % (2 * p) % 2 == x % 2 && x % (2 * p) / 2 == x / 2 % p
  {
    var q, r := x / (2 * p), x % (2 * p);
    assert x == 2 * (q * p) + r;
    assert x / 2 == q * p + r / 2;
    RemainderIs(x / 2, p, q, r / 2);
  }

  lemma RemainderIs(x: nat, p: nat, q: nat, r: nat)
    requires r < p && x == q * p + r
    ensures x % p == r
  {
    var f, e := x / p, x % p;
    assert x == f * p + e;
    assert (f - q) * p == r - e;
    NoMultipleBetween(f - q, p);
  }

  lemma NoMultipleBetween(k: int, p: int)
    requires p > 0 && -p < k * p < p
    ensures k == 0
  {
    if k > 0 {
      MultipleGrows(k, p);
    } else if k < 0 {
      MultipleGrows(-k, p);
    }
  }

  lemma MultipleGrows(k: int, p: int)
    requires k > 0 && p >= 0
    ensures k * p >= p
  {
  }

  /** A shift puts zeros behind what the window held. */
  lemma {:induction false} BitsOfShift(v: nat, n: nat, k: nat)
    requires n + k <= 32
    ensures LowBits(ShiftLeft(v, k), n + k) == LowBits(v, n) + Zeros(k)
  {
    if k == 0 {
      assert LowBits(v, n) + Zeros(0) == LowBits(v, n);
    } else {
      BitsOfShift(v, n, k - 1);
      Doubled(ShiftLeft(v, k - 1), n + k - 1);
      assert LowBits(v, n) + Zeros(k - 1) + [false] == LowBits(v, n) + Zeros(k);
    }
  }

  lemma Doubled(v: nat, n: nat)
    requires n < 32
    ensures LowBits((2 * v) % WORD, n + 1) == LowBits(v, n) + [false]
  {
    PowWord();
    LowBitsOfRemainder(2 * v, WORD, 32, n + 1);
  }

  /** An or into zeros adds. */
  lemma {:induction false} OrIntoZeros(x: nat, high: seq<bool>, b: nat, k: nat)
    requires LowBits(x, |high| + k) == high + Zeros(k)
    requires b < Pow2(k)
    ensures LowBits(x + b, |high| + k) == high + LowBits(b, k)
    decreases k
  {
    if k == 0 {
      assert high + Zeros(0) == high + LowBits(b, 0);
    } else {
      var n := |high| + k;
      assert LowBits(x, n) == LowBits(x / 2, n - 1) + [x % 2 == 1];
      assert (high + Zeros(k))[n - 1] == false;
      assert (high + Zeros(k))[..n - 1] == high + Zeros(k - 1);
      assert LowBits(x, n)[..n - 1] == LowBits(x / 2, n - 1);
      OrIntoZeros(x / 2, high, b / 2, k - 1);
      assert (x + b) / 2 == x / 2 + b / 2 && (x + b) % 2 == b % 2;
      assert high + LowBits(b / 2, k - 1) + [b % 2 == 1] == high + LowBits(b, k);
    }
  }

  /** Shifting a number in puts its bits behind the window's. */
  lemma ShiftInto(v: nat, b: nat, n: nat, k: nat)
    requires b < Pow2(k) && n + k <= 32
    ensures LowBits(ShiftLeft(v, k) + b, n + k) == LowBits(v, n) + LowBits(b, k)
  {
    BitsOfShift(v, n, k);
    OrIntoZeros(ShiftLeft(v, k), LowBits(v, n), b, k);
  }

  lemma PowSmall()
    ensures Pow2(5) == 32 && Pow2(8) == 256
  {
  }

  lemma PowWord()
    ensures Pow2(32) == WORD
  {
    assert Pow2(8) == 256;
    assert Pow2(16) == 65536;
    assert Pow2(24) == 16777216;
  }

  /** The bits of a window are the upper bits of it followed by the lower. */
  lemma {:induction false} BitsSplit(v: nat, a: nat, b: nat)
    ensures LowBits(v, a + b) == LowBits(ShiftRight(v, b), a) + LowBits(v, b)
    decreases b
  {
    if b == 0 {
      assert LowBits(v, a) + [] == LowBits(v, a);
    } else {
      BitsSplit(v / 2, a, b - 1);
    }
  }

  /** What `(v >>> (n - k)) & (2^k - 1)` reads: the first `k` of the low `n` bits. */
  lemma ReadTop(v: nat, n: nat, k: nat, d: nat)
    requires k <= n && d == Pow2(k)
    ensures LowBits(v, n) == LowBits(ShiftRight(v, n - k) % d, k) + LowBits(v, n - k)
  {
    BitsSplit(v, k, n - k);
    LowBitsOfRemainder(ShiftRight(v, n - k), d, k, k);
  }

  // ----- numbers and their bits -----

  lemma {:induction false} ValueOfLowBits(v: nat, n: nat)
    requires v < Pow2(n)
    ensures ValueOf(LowBits(v, n)) == v
  {
    if n > 0 {
      ValueOfLowBits(v / 2, n - 1);
      assert LowBits(v, n)[..n - 1] == LowBits(v / 2, n - 1);
    }
  }

  lemma {:induction false} LowBitsOfValue(bits: seq<bool>)
    ensures ValueOf(bits) < Pow2(|bits|)
    ensures LowBits(ValueOf(bits), |bits|) == bits
  {
    if bits != [] {
      LowBitsOfValue(bits[..|bits| - 1]);
      assert bits[..|bits| - 1] + [bits[|bits| - 1]] == bits;
    }
  }

  lemma {:induction false} BitsPush(groups: seq<nat>, g: nat, k: nat)
    ensures Bits(groups + [g], k) == Bits(groups, k) + LowBits(g, k)
  {
    if groups == [] {
      assert LowBits(g, k) + [] == LowBits(g, k);
    } else {
      BitsPush(groups[1..], g, k);
      assert (groups + [g])[1..] == groups[1..] + [g];
    }
  }

  /** Shifting a group into the accumulator. */
  lemma TakeGroup(taken: seq<nat>, g: nat, front: seq<bool>, value: nat, bits: nat, k: nat)
    requires g < Pow2(k) && bits + k <= 32
    requires front + LowBits(value, bits) == Bits(taken, k)
    ensures front + LowBits(ShiftLeft(value, k) + g, bits + k) == Bits(taken + [g], k)
  {
    ShiftInto(value, g, bits, k);
    BitsPush(taken, g, k);
    var b, c := LowBits(value, bits), LowBits(g, k);
    assert front + (b + c) == (front + b) + c;
  }

  /** Reading a group off the accumulator. */
  lemma PutGroup(put: seq<nat>, value: nat, bits: nat, k: nat, d: nat)
    requires k <= bits && d == Pow2(k)
    ensures Bits(put + [ShiftRight(value, bits - k) % d], k) + LowBits(value, bits - k)
         == Bits(put, k) + LowBits(value, bits)
  {
    var g := ShiftRight(value, bits - k) % d;
    ReadTop(value, bits, k, d);
    BitsPush(put, g, k);
    var a, b, c := Bits(put, k), LowBits(g, k), LowBits(value, bits - k);
    assert a + (b + c) == (a + b) + c;
  }

  /** Reading the last bits off, zeros shifted in behind them. */
  lemma PutLastGroup(put: seq<nat>, value: nat, bits: nat, k: nat, d: nat)
    requires bits <= k <= 32 && d == Pow2(k)
    ensures Bits(put + [ShiftLeft(value, k - bits) % d], k)
         == Bits(put, k) + LowBits(value, bits) + Zeros(k - bits)
  {
    var shifted := ShiftLeft(value, k - bits);
    BitsOfShift(value, bits, k - bits);
    LowBitsOfRemainder(shifted, d, k, k);
    BitsPush(put, shifted % d, k);
    var a, b, c := Bits(put, k), LowBits(value, bits), Zeros(k - bits);
    assert a + (b + c) == (a + b) + c;
  }

  // ----- cutting a bit string into groups -----

  ghost predicate Fit(groups: seq<nat>, k: nat) {
    forall i :: 0 <= i < |groups| ==> groups[i] < Pow2(k)
  }

  /** Groups of `k` bits, the last one filled up with zeros. */
  function Groups(bits: seq<bool>, k: nat): seq<nat>
    requires k > 0
  {
    if bits == [] then
      []
    else if |bits| < k then
      [ValueOf(bits + Zeros(k - |bits|))]
    else
      [ValueOf(bits[..k])] + Groups(bits[k..], k)
  }

  /** Groups of `k` bits, what is left over dropped. */
  function WholeGroups(bits: seq<bool>, k: nat): seq<nat>
    requires k > 0
  {
    if |bits| < k then [] else [ValueOf(bits[..k])] + WholeGroups(bits[k..], k)
  }

  lemma {:induction false} GroupsFit(bits: seq<bool>, k: nat) returns (pad: nat)
    requires k > 0
    ensures pad < k
    ensures Fit(Groups(bits, k), k)
    ensures Bits(Groups(bits, k), k) == bits + Zeros(pad)
    decreases |bits|
  {
    if bits == [] {
      pad := 0;
    } else if |bits| < k {
      pad := k - |bits|;
      LastGroupFits(bits + Zeros(pad), k);
    } else {
      pad := GroupsFit(bits[k..], k);
      GroupGoesFirst(bits, Groups(bits[k..], k), k, Zeros(pad));
    }
  }

  lemma GroupGoesFirst(bits: seq<bool>, rest: seq<nat>, k: nat, tail: seq<bool>)
    requires k <= |bits| && Fit(rest, k) && Bits(rest, k) == bits[k..] + tail
    ensures Fit([ValueOf(bits[..k])] + rest, k)
    ensures Bits([ValueOf(bits[..k])] + rest, k) == bits + tail
  {
    LowBitsOfValue(bits[..k]);
    FitCons(ValueOf(bits[..k]), rest, k);
    assert bits[..k] + (bits[k..] + tail) == bits + tail;
  }

  lemma LastGroupFits(bits: seq<bool>, k: nat)
    requires |bits| == k
    ensures Fit([ValueOf(bits)], k) && Bits([ValueOf(bits)], k) == bits
  {
    LowBitsOfValue(bits);
    assert [ValueOf(bits)][1..] == [];
    assert Bits([ValueOf(bits)], k) == LowBits(ValueOf(bits), k) + [];
  }

  lemma FitCons(g: nat, rest: seq<nat>, k: nat)
    requires g < Pow2(k) && Fit(rest, k)
    ensures Fit([g] + rest, k)
    ensures Bits([g] + rest, k) == LowBits(g, k) + Bits(rest, k)
  {
    assert ([g] + rest)[1..] == rest;
  }

  /** Groups whose bits are these bits and fewer than `k` zeros are the cut. */
  lemma {:induction false} GroupsUnique(groups: seq<nat>, bits: seq<bool>, pad: nat, k: nat)
    requires pad < k && Fit(groups, k)
    requires Bits(groups, k) == bits + Zeros(pad)
    ensures Groups(bits, k) == groups
    decreases |groups|
  {
    if groups != [] {
      var rest := Bits(groups[1..], k);
      FirstGroup(groups[0], rest, bits + Zeros(pad), k);
      if |bits| < k {
        assert |bits + Zeros(pad)| == k + |rest|;
        NoGroup(groups[1..], k);
        assert pad == k - |bits|;
        assert (bits + Zeros(pad))[..k] == bits + Zeros(pad);
        assert groups == [groups[0]];
      } else {
        assert (bits + Zeros(pad))[k..] == bits[k..] + Zeros(pad);
        assert (bits + Zeros(pad))[..k] == bits[..k];
        GroupsUnique(groups[1..], bits[k..], pad, k);
      }
    }
  }

  lemma NoGroup(groups: seq<nat>, k: nat)
    requires |Bits(groups, k)| < k
    ensures groups == []
  {
  }

  lemma FirstGroup(g: nat, rest: seq<bool>, bits: seq<bool>, k: nat)
    requires g < Pow2(k) && bits == LowBits(g, k) + rest
    ensures ValueOf(bits[..k]) == g && bits[k..] == rest
  {
    ValueOfLowBits(g, k);
    assert bits[..k] == LowBits(g, k);
  }

  /** Groups followed by less than one group's bits are the whole groups. */
  lemma {:induction false} WholeGroupsUnique(groups: seq<nat>, bits: seq<bool>, tail: seq<bool>, k: nat)
    requires |tail| < k && Fit(groups, k)
    requires bits == Bits(groups, k) + tail
    ensures WholeGroups(bits, k) == groups
    decreases |groups|
  {
    if groups == [] {
      assert bits == tail;
    } else {
      var first, body := LowBits(groups[0], k), Bits(groups[1..], k);
      var rest := body + tail;
      assert (first + body) + tail == first + rest;
      FirstGroup(groups[0], rest, bits, k);
      WholeGroupsUnique(groups[1..], rest, tail, k);
    }
  }

  // ----- the codec -----

  function Letter(d: Digit): char {
    if d < 26 then ('A' as int + d) as char else ('2' as int + d - 26) as char
  }

  /** The place of a letter in the alphabet, or -1. */
  function PlaceOf(c: char): int {
    if 'A' <= c <= 'Z' then
      c as int - 'A' as int
    else if '2' <= c <= '7' then
      c as int - '2' as int + 26
    else
      -1
  }

  /** The two functions read the alphabet: by place, and by character as `indexOf` does. */
  lemma AlphabetRead(d: Digit, c: char)
    ensures |ALPHABET| == 32 && ALPHABET[d] == Letter(d)
    ensures PlaceOf(c) == -1 <==> c !in ALPHABET
    ensures PlaceOf(c) == d <==> ALPHABET[d] == c
  {
  }

  function Text(digits: seq<Digit>): string {
    seq(|digits|, i requires 0 <= i < |digits| => Letter(digits[i]))
  }

  lemma DigitsFit(bytes: seq<Byte>)
    ensures forall i :: 0 <= i < |Groups(Bits(bytes, 8), 5)| ==> Groups(Bits(bytes, 8), 5)[i] < 32
  {
    var pad := GroupsFit(Bits(bytes, 8), 5);
    PowSmall();
  }

  /** The five-bit digits of a byte string. */
  function DigitsOf(bytes: seq<Byte>): seq<Digit> {
    DigitsFit(bytes);
    Groups(Bits(bytes, 8), 5)
  }

  function Encoded(bytes: seq<Byte>): string {
    Text(DigitsOf(bytes))
  }

  /**
   The upper case of a character, where it is made of letters of the alphabet: of the ASCII
   letters, of the dotless i, the long s and the sharp s, and of the seven Latin ligatures.
   Any other character and its upper case are alike no letter of the alphabet, no white space
   and no padding, so it stands for itself.
   */
  function Upper(c: char): string {
    if 'a' <= c <= 'z' then [(c as int - 32) as char]
    else if c == '\U{0131}' then "I"
    else if c == '\U{017F}' then "S"
    else if c == '\U{00DF}' then "SS"
    else if c == '\U{FB00}' then "FF"
    else if c == '\U{FB01}' then "FI"
    else if c == '\U{FB02}' then "FL"
    else if c == '\U{FB03}' then "FFI"
    else if c == '\U{FB04}' then "FFL"
    else if c == '\U{FB05}' || c == '\U{FB06}' then "ST"
    else [c]
  }

  function UpperCase(text: string): string {
    if text == [] then [] else Upper(text[0]) + UpperCase(text[1..])
  }

  function WithoutPadding(text: string): string {
    if text != [] && text[|text| - 1] == '=' then WithoutPadding(text[..|text| - 1]) else text
  }

  /** The characters `\s` names. */
  predicate IsSpace(c: char) {
    || c == ' ' || '\U{0009}' <= c <= '\U{000D}' || c == '\U{00A0}' || c == '\U{1680}'
    || '\U{2000}' <= c <= '\U{200A}' || c == '\U{2028}' || c == '\U{2029}'
    || c == '\U{202F}' || c == '\U{205F}' || c == '\U{3000}' || c == '\U{FEFF}'
  }

  function WithoutSpaces(text: string): string {
    if text == [] then
      []
    else if IsSpace(text[0]) then
      WithoutSpaces(text[1..])
    else
      [text[0]] + WithoutSpaces(text[1..])
  }

  function Cleaned(encoded: string): string {
    WithoutSpaces(WithoutPadding(UpperCase(encoded)))
  }

  predicate IsBase32(cleaned: string) {
    forall i :: 0 <= i < |cleaned| ==> PlaceOf(cleaned[i]) >= 0
  }

  function Indexes(cleaned: string): seq<Digit>
    requires IsBase32(cleaned)
  {
    seq(|cleaned|, i requires 0 <= i < |cleaned| => PlaceOf(cleaned[i]))
  }

  /** The whole bytes in the bits of the digits; `None` where the source throws. */
  function Decoded(encoded: string): Option<seq<nat>> {
    var cleaned := Cleaned(encoded);
    if IsBase32(cleaned) then Some(WholeGroups(Bits(Indexes(cleaned), 5), 8)) else None
  }

  /** The digits written and the accumulator hold the bits of the first `n` bytes. */
  ghost predicate Written(digits: seq<Digit>, value: nat, bits: nat, bytes: seq<Byte>, n: nat)
    requires n <= |bytes|
  {
    Bits(digits, 5) + LowBits(value, bits) == Bits(bytes[..n], 8)
  }

  method Encode(bytes: seq<Byte>) returns (output: string)
    ensures output == Encoded(bytes)
  {
    var bits: nat, value: nat := 0, 0;
    output := "";
    ghost var digits: seq<Digit> := [];
    for i := 0 to |bytes|
      invariant bits < 5 && output == Text(digits)
      invariant Written(digits, value, bits, bytes, i)
    {
      TakeByte(digits, value, bits, bytes, i);
      value := ShiftLeft(value, 8) + bytes[i];
      bits := bits + 8;
      while bits >= 5
        invariant bits <= 12 && output == Text(digits)
        invariant Written(digits, value, bits, bytes, i + 1)
      {
        var digit := ShiftRight(value, bits - 5) % 32;
        PutDigit(digits, value, bits, bytes, i + 1);
        output := output + [Letter(digit)];
        digits := digits + [digit];
        bits := bits - 5;
      }
    }
    LastDigit(digits, value, bits, bytes);
    if bits > 0 {
      output := output + [Letter(ShiftLeft(value, 5 - bits) % 32)];
    }
  }

  lemma TextPush(digits: seq<Digit>, digit: Digit)
    ensures Text(digits + [digit]) == Text(digits) + [Letter(digit)]
  {
  }

  lemma TakeByte(digits: seq<Digit>, value: nat, bits: nat, bytes: seq<Byte>, i: nat)
    requires i < |bytes| && bits < 5 && Written(digits, value, bits, bytes, i)
    ensures Written(digits, ShiftLeft(value, 8) + bytes[i], bits + 8, bytes, i + 1)
  {
    PowSmall();
    TakeGroup(bytes[..i], bytes[i], Bits(digits, 5), value, bits, 8);
    assert bytes[..i + 1] == bytes[..i] + [bytes[i]];
  }

  lemma PutDigit(digits: seq<Digit>, value: nat, bits: nat, bytes: seq<Byte>, n: nat)
    requires bits >= 5 && n <= |bytes| && Written(digits, value, bits, bytes, n)
    ensures var digit := ShiftRight(value, bits - 5) % 32;
            && Written(digits + [digit], value, bits - 5, bytes, n)
            && Text(digits + [digit]) == Text(digits) + [Letter(digit)]
  {
    PowSmall();
    PutGroup(digits, value, bits, 5, 32);
    TextPush(digits, ShiftRight(value, bits - 5) % 32);
  }

  /** What is left in the accumulator makes the last digit, if anything is. */
  lemma LastDigit(digits: seq<Digit>, value: nat, bits: nat, bytes: seq<Byte>)
    requires bits < 5 && Written(digits, value, bits, bytes, |bytes|)
    ensures Encoded(bytes)
         == if bits > 0 then Text(digits) + [Letter(ShiftLeft(value, 5 - bits) % 32)] else Text(digits)
  {
    assert bytes[..|bytes|] == bytes;
    if bits > 0 {
      var digit := ShiftLeft(value, 5 - bits) % 32;
      PowSmall();
      PutLastGroup(digits, value, bits, 5, 32);
      CutIntoDigits(digits + [digit], bytes, 5 - bits);
      TextPush(digits, digit);
    } else {
      assert Bits(digits, 5) == Bits(bytes, 8) + Zeros(0);
      CutIntoDigits(digits, bytes, 0);
    }
  }

  lemma CutIntoDigits(digits: seq<Digit>, bytes: seq<Byte>, pad: nat)
    requires pad < 5 && Bits(digits, 5) == Bits(bytes, 8) + Zeros(pad)
    ensures digits == DigitsOf(bytes)
  {
    PowSmall();
    GroupsUnique(digits, Bits(bytes, 8), pad, 5);
  }

  /** The bytes read and the accumulator hold the bits of the digits. */
  ghost predicate Carried(out: seq<Byte>, value: nat, bits: nat, digits: seq<Digit>) {
    Bits(out, 8) + LowBits(value, bits) == Bits(digits, 5)
  }

  method Decode(encoded: string) returns (bytes: Option<seq<Byte>>)
    ensures bytes == Decoded(encoded)
  {
    var cleaned := Cleaned(encoded);
    var bits: nat, value: nat := 0, 0;
    var out: seq<Byte> := [];
    ghost var digits: seq<Digit> := [];
    for i := 0 to |cleaned|
      invariant bits < 8
      invariant Reads(digits, cleaned, i)
      invariant Carried(out, value, bits, digits)
    {
      var index := PlaceOf(cleaned[i]);
      if index == -1 {
        assert !IsBase32(cleaned);
        return None;
      }
      TakeDigit(out, value, bits, digits, index);
      digits := digits + [index];
      value := ShiftLeft(value, 5) + index;
      bits := bits + 5;
      if bits >= 8 {
        PutByte(out, value, bits, digits);
        out := out + [ShiftRight(value, bits - 8) % 256];
        bits := bits - 8;
      }
    }
    CutIntoBytes(out, cleaned, digits, LowBits(value, bits));
    return Some(out);
  }

  lemma TakeDigit(out: seq<Byte>, value: nat, bits: nat, digits: seq<Digit>, index: Digit)
    requires bits < 8 && Carried(out, value, bits, digits)
    ensures Carried(out, ShiftLeft(value, 5) + index, bits + 5, digits + [index])
  {
    PowSmall();
    TakeGroup(digits, index, Bits(out, 8), value, bits, 5);
  }

  lemma PutByte(out: seq<Byte>, value: nat, bits: nat, digits: seq<Digit>)
    requires bits >= 8 && Carried(out, value, bits, digits)
    ensures Carried(out + [ShiftRight(value, bits - 8) % 256], value, bits - 8, digits)
  {
    PowSmall();
    PutGroup(out, value, bits, 8, 256);
  }

  ghost predicate Reads(digits: seq<Digit>, cleaned: string, n: nat)
    requires n <= |cleaned|
  {
    && |digits| == n
    && forall i :: 0 <= i < n ==> digits[i] == PlaceOf(cleaned[i])
  }

  lemma CutIntoBytes(out: seq<Byte>, cleaned: string, digits: seq<Digit>, tail: seq<bool>)
    requires |tail| < 8 && Reads(digits, cleaned, |cleaned|)
    requires Bits(out, 8) + tail == Bits(digits, 5)
    ensures IsBase32(cleaned)
    ensures WholeGroups(Bits(Indexes(cleaned), 5), 8) == out
  {
    forall i | 0 <= i < |cleaned|
      ensures PlaceOf(cleaned[i]) >= 0
    {
      assert digits[i] == PlaceOf(cleaned[i]);
    }
    assert Indexes(cleaned) == digits;
    PowSmall();
    WholeGroupsUnique(out, Bits(digits, 5), tail, 8);
  }

  // ----- what the codec promises -----

  lemma {:induction false} BitsLength(groups: seq<nat>, k: nat)
    ensures |Bits(groups, k)| == k * |groups|
  {
    if groups != [] {
      BitsLength(groups[1..], k);
    }
  }

  /** The digits are the bytes' bits and fewer than five zeros, so there are 8n/5 of them, rounded up. */
  lemma EncodedLength(bytes: seq<Byte>)
    ensures |Encoded(bytes)| == (8 * |bytes| + 4) / 5
  {
    var pad := GroupsFit(Bits(bytes, 8), 5);
    BitsLength(bytes, 8);
    BitsLength(DigitsOf(bytes), 5);
    assert |Bits(DigitsOf(bytes), 5)| == |Bits(bytes, 8) + Zeros(pad)|;
  }

  lemma LetterPlace(d: Digit)
    ensures PlaceOf(Letter(d)) == d && Upper(Letter(d)) == [Letter(d)]
    ensures !IsSpace(Letter(d)) && Letter(d) != '='
  {
  }

  lemma {:induction false} NothingToStrip(text: string)
    requires forall i :: 0 <= i < |text| ==> !IsSpace(text[i])
    ensures WithoutSpaces(text) == text
  {
    if text != [] {
      NothingToStrip(text[1..]);
    }
  }

  lemma {:induction false} NothingToRaise(text: string)
    requires forall i :: 0 <= i < |text| ==> Upper(text[i]) == [text[i]]
    ensures UpperCase(text) == text
  {
    if text != [] {
      NothingToRaise(text[1..]);
    }
  }

  lemma {:induction false} UpperCaseConcat(a: string, b: string)
    ensures UpperCase(a + b) == UpperCase(a) + UpperCase(b)
  {
    if a == [] {
      assert a + b == b;
    } else {
      UpperCaseConcat(a[1..], b);
      assert (a + b)[1..] == a[1..] + b;
    }
  }

  /** An encoding is clean already. */
  lemma EncodedIsClean(digits: seq<Digit>)
    ensures Cleaned(Text(digits)) == Text(digits)
    ensures IsBase32(Text(digits)) && Indexes(Text(digits)) == digits
  {
    var text := Text(digits);
    forall i | 0 <= i < |text|
      ensures PlaceOf(text[i]) == digits[i] && Upper(text[i]) == [text[i]] && !IsSpace(text[i]) && text[i] != '='
    {
      LetterPlace(digits[i]);
    }
    NothingToRaise(text);
    NothingToStrip(text);
    assert Indexes(text) == digits;
  }

  /** Decoding an encoding gives the bytes back. */
  lemma RoundTrip(bytes: seq<Byte>)
    ensures Decoded(Encoded(bytes)) == Some(bytes)
  {
    EncodedIsClean(DigitsOf(bytes));
    var pad := GroupsFit(Bits(bytes, 8), 5);
    PowSmall();
    WholeGroupsUnique(bytes, Bits(DigitsOf(bytes), 5), Zeros(pad), 8);
  }

  lemma PadIgnored(text: string)
    ensures Decoded(text + ['=']) == Decoded(text)
  {
    var upper := UpperCase(text);
    UpperCaseConcat(text, ['=']);
    assert UpperCase(['=']) == ['='];
    assert (upper + ['='])[..|upper|] == upper;
    assert WithoutPadding(upper + ['=']) == WithoutPadding(upper);
  }

  /** Trailing padding does not matter to the decoder. */
  lemma {:induction false} PaddingIgnored(encoded: string, n: nat)
    ensures Decoded(encoded + seq(n, _ => '=')) == Decoded(encoded)
  {
    if n == 0 {
      assert encoded + seq(0, _ => '=') == encoded;
    } else {
      var padded := encoded + seq(n - 1, _ => '=');
      assert encoded + seq(n, _ => '=') == padded + ['='];
      PadIgnored(padded);
      PaddingIgnored(encoded, n - 1);
    }
  }
}

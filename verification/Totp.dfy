/** The thirty-second steps of RFC 6238, and the window around the current one. */
module TotpWindow {
  import opened Common

  const PERIOD_SECONDS := 30
  const WINDOW_STEPS := 1

  function StepAt(now: int): int {
    now / 1000 / PERIOD_SECONDS
  }

  /** The step a code was found to match lies in the window around the current one. */
  predicate InWindow(matched: Option<int>, now: int) {
    matched.Some? ==> StepAt(now) - WINDOW_STEPS <= matched.value <= StepAt(now) + WINDOW_STEPS
  }
}

/**
 Time-based one-time codes: section 5.3 of RFC 4226 over the steps of RFC 6238. The keyed
 hash (HMAC with SHA-1) is a parameter that gives twenty bytes.
 */
module Totp {
  import opened Common
  import opened Base32
  import opened TotpWindow

  type Digest = d: seq<Byte> | |d| == 20 witness seq(20, _ => 0)

  type Hmac = (seq<Byte>, seq<Byte>) -> Digest

  const CODES := 1_000_000

  // ----- the message: the counter in eight bytes -----

  function WriteUInt32BE(v: nat): (bytes: seq<Byte>)
    requires v < WORD
    ensures |bytes| == 4
  {
    [v / 0x100_0000, v / 0x1_0000 % 256, v / 0x100 % 256, v % 256]
  }

  predicate Writable(counter: int) {
    0 <= counter / WORD < WORD
  }

  /** The high word, then `counter >>> 0`. */
  function Message(counter: int): seq<Byte>
    requires Writable(counter)
  {
    WriteUInt32BE(counter / WORD) + WriteUInt32BE(counter % WORD)
  }

  function BigEndian(bytes: seq<Byte>): nat {
    if bytes == [] then 0 else 256 * BigEndian(bytes[..|bytes| - 1]) + bytes[|bytes| - 1]
  }

  lemma BigEndianPush(bytes: seq<Byte>, b: Byte)
    ensures BigEndian(bytes + [b]) == 256 * BigEndian(bytes) + b
  {
    assert (bytes + [b])[..|bytes|] == bytes;
  }

  lemma BigEndianOfFour(head: seq<Byte>, a: Byte, b: Byte, c: Byte, d: Byte)
    ensures BigEndian(head + [a, b, c, d])
         == BigEndian(head) * WORD + a * 0x100_0000 + b * 0x1_0000 + c * 0x100 + d
  {
    BigEndianPush(head, a);
    BigEndianPush(head + [a], b);
    BigEndianPush(head + [a] + [b], c);
    BigEndianPush(head + [a] + [b] + [c], d);
    assert head + [a] + [b] + [c] + [d] == head + [a, b, c, d];
  }

  lemma TopByte(v: nat)
    ensures v / 0x100 / 0x100 == v / 0x1_0000 && v / 0x1_0000 / 0x100 == v / 0x100_0000
  {
  }

  lemma LowByte(v: nat)
    ensures v == v / 0x100 * 0x100 + v % 0x100
  {
  }

  lemma WordBytes(v: nat)
    ensures v == v / 0x100_0000 * 0x100_0000 + v / 0x1_0000 % 256 * 0x1_0000 + v / 0x100 % 256 * 0x100 + v % 256
  {
    TopByte(v);
    LowByte(v);
    LowByte(v / 0x100);
    LowByte(v / 0x1_0000);
  }

  /** The message is the counter, most significant byte first. */
  lemma MessageIsCounter(counter: int)
    requires Writable(counter)
    ensures |Message(counter)| == 8 && BigEndian(Message(counter)) == counter
  {
    var high, low := counter / WORD, counter % WORD;
    WordBytes(high);
    WordBytes(low);
    var h, l := WriteUInt32BE(high), WriteUInt32BE(low);
    BigEndianOfFour([], h[0], h[1], h[2], h[3]);
    assert h == [] + [h[0], h[1], h[2], h[3]];
    BigEndianOfFour(h, l[0], l[1], l[2], l[3]);
    assert l == [l[0], l[1], l[2], l[3]];
  }

  /** No other eight bytes name it. */
  lemma {:induction false} BigEndianInjective(a: seq<Byte>, b: seq<Byte>)
    requires |a| == |b| && BigEndian(a) == BigEndian(b)
    ensures a == b
  {
    if a != [] {
      var n := |a| - 1;
      BigEndianInjective(a[..n], b[..n]);
      assert a == a[..n] + [a[n]];
      assert b == b[..n] + [b[n]];
    }
  }

  // ----- dynamic truncation -----

  function Offset(digest: Digest): nat {
    digest[19] % 16
  }

  function Truncated(digest: Digest): nat {
    var o := Offset(digest);
    var a: int, b: int, c: int, d: int := digest[o], digest[o + 1], digest[o + 2], digest[o + 3];
    a % 128 * 0x100_0000 + b * 0x1_0000 + c * 0x100 + d
  }

  /** Four bytes at the offset, most significant first, without the sign bit. */
  lemma TruncatedIsThirtyOneBits(digest: Digest)
    ensures Truncated(digest) == BigEndian(digest[digest[19] % 16..digest[19] % 16 + 4]) % 0x8000_0000
  {
    var o := Offset(digest);
    var a: int, b: int, c: int, d: int := digest[o], digest[o + 1], digest[o + 2], digest[o + 3];
    assert digest[o..o + 4] == [] + [a, b, c, d];
    BigEndianOfFour([], a, b, c, d);
    SignBitDropped(a, b * 0x1_0000 + c * 0x100 + d);
  }

  lemma SignBitDropped(a: Byte, rest: nat)
    requires rest < 0x100_0000
    ensures (a * 0x100_0000 + rest) % 0x8000_0000 == a % 128 * 0x100_0000 + rest
  {
    assert a == a / 128 * 128 + a % 128;
    assert a * 0x100_0000 + rest == a / 128 * 0x8000_0000 + (a % 128 * 0x100_0000 + rest);
  }

  // ----- six decimal digits -----

  function DecimalDigit(d: nat): char
    requires d < 10
  {
    ('0' as int + d) as char
  }

  function Decimal(n: nat): string {
    if n < 10 then [DecimalDigit(n)] else Decimal(n / 10) + [DecimalDigit(n % 10)]
  }

  function PadStart(text: string, length: nat): string
    decreases length - |text|
  {
    if |text| < length then PadStart(['0'] + text, length) else text
  }

  predicate IsNumeral(text: string) {
    forall i :: 0 <= i < |text| ==> '0' <= text[i] <= '9'
  }

  function NumberOf(text: string): nat
    requires IsNumeral(text)
  {
    if text == [] then
      0
    else
      10 * NumberOf(text[..|text| - 1]) + (text[|text| - 1] as int - '0' as int)
  }

  function Pow10(n: nat): nat {
    if n == 0 then 1 else 10 * Pow10(n - 1)
  }

  lemma {:induction false} DecimalReads(n: nat, length: nat)
    requires n < Pow10(length) && length > 0
    ensures IsNumeral(Decimal(n)) && NumberOf(Decimal(n)) == n && 1 <= |Decimal(n)| <= length
  {
    if n >= 10 {
      assert length > 1 by {
        assert Pow10(1) == 10 * Pow10(0);
      }
      DecimalReads(n / 10, length - 1);
      assert Decimal(n)[..|Decimal(n)| - 1] == Decimal(n / 10);
    } else {
      assert Decimal(n)[..0] == [];
    }
  }

  lemma {:induction false} LeadingZero(text: string)
    requires IsNumeral(text)
    ensures IsNumeral(['0'] + text) && NumberOf(['0'] + text) == NumberOf(text)
  {
    var longer := ['0'] + text;
    if text == [] {
      assert longer[..0] == [];
    } else {
      LeadingZero(text[..|text| - 1]);
      assert longer[..|text|] == ['0'] + text[..|text| - 1];
    }
  }

  lemma {:induction false} PaddedReads(text: string, length: nat)
    requires IsNumeral(text) && |text| <= length
    ensures |PadStart(text, length)| == length
    ensures IsNumeral(PadStart(text, length)) && NumberOf(PadStart(text, length)) == NumberOf(text)
    decreases length - |text|
  {
    if |text| < length {
      LeadingZero(text);
      PaddedReads(['0'] + text, length);
    }
  }

  predicate IsCode(text: string) {
    |text| == 6 && IsNumeral(text)
  }

  function SixDigits(n: nat): string {
    PadStart(Decimal(n), 6)
  }

  lemma SixDigitsRead(n: nat)
    requires n < CODES
    ensures IsCode(SixDigits(n)) && NumberOf(SixDigits(n)) == n
  {
    assert Pow10(3) == 1000;
    assert Pow10(6) == CODES;
    DecimalReads(n, 6);
    PaddedReads(Decimal(n), 6);
  }

  // ----- the code of a step -----

  /** A code, or one of the two errors the source throws. */
  datatype Coded = Code(text: string) | SecretRefused | CounterRefused

  function CodeOf(hmac: Hmac, key: seq<Byte>, counter: int): string
    requires Writable(counter)
  {
    SixDigits(Truncated(hmac(key, Message(counter))) % CODES)
  }

  function KeyOf(secret: string): Option<seq<Byte>> {
    KeyIsBytes(secret);
    Decoded(secret)
  }

  lemma KeyIsBytes(secret: string)
    ensures Decoded(secret).Some? ==>
              forall i :: 0 <= i < |Decoded(secret).value| ==> Decoded(secret).value[i] < 256
  {
    if Decoded(secret).Some? {
      PowSmall();
      WholeGroupsFit(Bits(Indexes(Cleaned(secret)), 5), 8);
    }
  }

  lemma {:induction false} WholeGroupsFit(bits: seq<bool>, k: nat)
    requires k > 0
    ensures Fit(WholeGroups(bits, k), k)
    decreases |bits|
  {
    if |bits| >= k {
      LowBitsOfValue(bits[..k]);
      WholeGroupsFit(bits[k..], k);
    }
  }

  function CodeAt(hmac: Hmac, secret: string, counter: int): Coded {
    match KeyOf(secret)
    case None => SecretRefused
    case Some(key) => if Writable(counter) then Code(CodeOf(hmac, key, counter)) else CounterRefused
  }

  /**
   The code of a secret this service issued: six digits that read as the thirty-one bits at the
   hash's own offset, modulo a million, of the hash of the big-endian counter under the secret's
   own bytes. The counter is refused exactly when it does not fit eight bytes.
   */
  lemma CodeIsHotp(hmac: Hmac, key: seq<Byte>, counter: int)
    ensures 0 <= counter < WORD * WORD <==> Writable(counter)
    ensures CodeAt(hmac, Encoded(key), counter)
         == if Writable(counter) then Code(CodeOf(hmac, key, counter)) else CounterRefused
    ensures Writable(counter) ==> IsHotp(CodeOf(hmac, key, counter), hmac, key, counter)
  {
    RoundTrip(key);
    if Writable(counter) {
      MessageIsCounter(counter);
      assert NamesCounter(Message(counter), counter);
      var digest := hmac(key, Message(counter));
      TruncatedIsThirtyOneBits(digest);
      SixDigitsRead(Truncated(digest) % CODES);
      assert ReadsAs(CodeOf(hmac, key, counter), digest);
      forall message | NamesCounter(message, counter)
        ensures message == Message(counter)
      {
        BigEndianInjective(message, Message(counter));
      }
    }
  }

  ghost predicate NamesCounter(message: seq<Byte>, counter: int) {
    |message| == 8 && BigEndian(message) == counter
  }

  ghost predicate ReadsAs(code: string, digest: Digest) {
    && IsCode(code)
    && NumberOf(code) == BigEndian(digest[digest[19] % 16..digest[19] % 16 + 4]) % 0x8000_0000 % 1_000_000
  }

  /** There is one eight-byte message that names the counter, and the code is read off its hash. */
  ghost predicate IsHotp(code: string, hmac: Hmac, key: seq<Byte>, counter: int) {
    && (exists message :: NamesCounter(message, counter))
    && (forall message :: NamesCounter(message, counter) ==> ReadsAs(code, hmac(key, message)))
  }

  // ----- accepting a code -----

  function TrimStart(text: string): string {
    if text != [] && IsSpace(text[0]) then TrimStart(text[1..]) else text
  }

  function TrimEnd(text: string): string {
    if text != [] && IsSpace(text[|text| - 1]) then TrimEnd(text[..|text| - 1]) else text
  }

  function Trim(text: string): string {
    TrimEnd(TrimStart(text))
  }

  ghost predicate AllSpace(text: string) {
    forall i :: 0 <= i < |text| ==> IsSpace(text[i])
  }

  lemma {:induction false} StartTrimmed(space: string, text: string)
    requires AllSpace(space) && (text != [] ==> !IsSpace(text[0]))
    ensures TrimStart(space + text) == text
    decreases |space|
  {
    if space == [] {
      assert space + text == text;
    } else {
      assert (space + text)[1..] == space[1..] + text;
      StartTrimmed(space[1..], text);
    }
  }

  lemma {:induction false} EndTrimmed(text: string, space: string)
    requires AllSpace(space) && (text != [] ==> !IsSpace(text[|text| - 1]))
    ensures TrimEnd(text + space) == text
    decreases |space|
  {
    if space == [] {
      assert text + space == text;
    } else {
      var n := |space| - 1;
      assert (text + space)[..|text| + n] == text + space[..n];
      EndTrimmed(text, space[..n]);
    }
  }

  /** White space around a code is ignored, and nothing else is. */
  lemma SpaceAroundIgnored(before: string, code: string, after: string)
    requires AllSpace(before) && AllSpace(after) && IsCode(code)
    ensures Trim(before + code + after) == code
  {
    assert before + code + after == before + (code + after);
    StartTrimmed(before, code + after);
    EndTrimmed(code, after);
  }

  datatype Accepted = Step(step: int) | NoStep | Threw

  predicate Matches(hmac: Hmac, secret: string, candidate: string, step: int) {
    CodeAt(hmac, secret, step) == Code(candidate)
  }

  predicate Near(step: int, atMs: int) {
    StepAt(atMs) - WINDOW_STEPS <= step <= StepAt(atMs) + WINDOW_STEPS
  }

  /** A six-digit candidate throws when a code of the window cannot be computed. */
  predicate Throws(secret: string, atMs: int) {
    || Decoded(secret).None?
    || !Writable(StepAt(atMs) - WINDOW_STEPS)
    || !Writable(StepAt(atMs) + WINDOW_STEPS)
  }

  /** The last step of the window that has this code; no step when none has. */
  ghost predicate IsAnswer(r: Accepted, hmac: Hmac, secret: string, code: string, atMs: int) {
    var candidate := Trim(code);
    if !IsCode(candidate) then
      r == NoStep
    else if Throws(secret, atMs) then
      r == Threw
    else
      match r
      case Threw => false
      case NoStep => forall k :: Near(k, atMs) ==> !Matches(hmac, secret, candidate, k)
      case Step(step) =>
        && Near(step, atMs)
        && Matches(hmac, secret, candidate, step)
        && forall k :: Near(k, atMs) && k > step ==> !Matches(hmac, secret, candidate, k)
  }

  /** The last step of `[low, high)` that has the candidate as its code. */
  ghost predicate LastMatch(matched: Option<int>, codes: int -> Coded, candidate: string, low: int, high: int) {
    match matched
    case None => forall k :: low <= k < high ==> codes(k) != Code(candidate)
    case Some(step) =>
      && low <= step < high
      && codes(step) == Code(candidate)
      && forall k :: step < k < high ==> codes(k) != Code(candidate)
  }

  ghost predicate Searched(threw: bool, matched: Option<int>, codes: int -> Coded, candidate: string, step: int) {
    && (threw <==>
        exists k :: step - WINDOW_STEPS <= k <= step + WINDOW_STEPS && !codes(k).Code?)
    && (!threw ==>
        LastMatch(matched, codes, candidate, step - WINDOW_STEPS, step + WINDOW_STEPS + 1))
  }

  /** The loop over the window; a code that cannot be computed ends it. */
  method LastMatching(codes: int -> Coded, candidate: string, step: int) returns (threw: bool, matched: Option<int>)
    ensures Searched(threw, matched, codes, candidate, step)
  {
    matched := None;
    for offset := -WINDOW_STEPS to WINDOW_STEPS + 1
      invariant forall k :: step - WINDOW_STEPS <= k < step + offset ==> codes(k).Code?
      invariant LastMatch(matched, codes, candidate, step - WINDOW_STEPS, step + offset)
    {
      var actual := codes(step + offset);
      if !actual.Code? {
        return true, None;
      }
      if actual.text == candidate {
        matched := Some(step + offset);
      }
    }
    threw := false;
  }

  method AcceptedStep(hmac: Hmac, secret: string, code: string, atMs: int) returns (r: Accepted)
    ensures IsAnswer(r, hmac, secret, code, atMs)
  {
    var candidate := Trim(code);
    if !IsCode(candidate) {
      return NoStep;
    }

    var codes := counter => CodeAt(hmac, secret, counter);
    var threw, matched := LastMatching(codes, candidate, StepAt(atMs));
    SearchAnswers(threw, matched, codes, hmac, secret, code, atMs);
    return if threw then Threw else if matched.Some? then Step(matched.value) else NoStep;
  }

  lemma SearchAnswers(threw: bool, matched: Option<int>, codes: int -> Coded, hmac: Hmac, secret: string, code: string, atMs: int)
    requires forall k :: codes(k) == CodeAt(hmac, secret, k)
    requires IsCode(Trim(code)) && Searched(threw, matched, codes, Trim(code), StepAt(atMs))
    ensures IsAnswer(if threw then Threw else if matched.Some? then Step(matched.value) else NoStep,
                     hmac, secret, code, atMs)
  {
    WindowThrows(hmac, secret, atMs);
    if threw {
      var k :| Near(k, atMs) && !codes(k).Code?;
      assert !CodeAt(hmac, secret, k).Code?;
    } else {
      forall k | Near(k, atMs)
        ensures CodeAt(hmac, secret, k).Code?
      {
        assert codes(k).Code?;
      }
      forall k
        ensures Matches(hmac, secret, Trim(code), k) <==> codes(k) == Code(Trim(code))
      {
      }
    }
  }

  /** The counters eight bytes hold are an interval, so the ends of the window decide. */
  lemma WindowThrows(hmac: Hmac, secret: string, atMs: int)
    ensures Throws(secret, atMs) <==> exists k :: Near(k, atMs) && !CodeAt(hmac, secret, k).Code?
  {
    var low, high := StepAt(atMs) - WINDOW_STEPS, StepAt(atMs) + WINDOW_STEPS;
    if Throws(secret, atMs) {
      assert Near(low, atMs) && Near(high, atMs);
      assert !CodeAt(hmac, secret, low).Code? || !CodeAt(hmac, secret, high).Code?;
    }
  }

  // ----- what acceptance promises -----

  /** The answer is unique, and what it names is what the two-factor burn rule takes for granted. */
  lemma AnswerIsUnique(a: Accepted, b: Accepted, hmac: Hmac, secret: string, code: string, atMs: int)
    requires IsAnswer(a, hmac, secret, code, atMs) && IsAnswer(b, hmac, secret, code, atMs)
    ensures a == b
    ensures a.Step? ==> InWindow(Some(a.step), atMs)
  {
  }

  /**
   A code an authenticator showed at `shownMs` is accepted at any time from thirty seconds before
   to thirty seconds after, whatever white space surrounds it, at a step no earlier than its own.
   One shown a minute or more away is accepted only by having the same digits as a nearer code.
   */
  lemma ShownCodeIsAccepted(r: Accepted, hmac: Hmac, key: seq<Byte>, code: string, shownMs: int, atMs: int)
    requires shownMs >= 0 && Writable(StepAt(shownMs))
    requires Trim(code) == CodeOf(hmac, key, StepAt(shownMs))
    requires !Throws(Encoded(key), atMs)
    requires IsAnswer(r, hmac, Encoded(key), code, atMs)
    ensures 30_000 * StepAt(shownMs) <= shownMs < 30_000 * (StepAt(shownMs) + 1)
    ensures shownMs - 30_000 <= atMs <= shownMs + 30_000 ==> r.Step? && r.step >= StepAt(shownMs)
    ensures r.Step? && (atMs <= shownMs - 60_000 || atMs >= shownMs + 60_000) ==>
              && r.step != StepAt(shownMs)
              && CodeOf(hmac, key, r.step) == CodeOf(hmac, key, StepAt(shownMs))
  {
    var step := StepAt(shownMs);
    CodeIsHotp(hmac, key, step);
    assert Matches(hmac, Encoded(key), Trim(code), step);
    if shownMs - 30_000 <= atMs <= shownMs + 30_000 {
      assert Near(step, atMs);
    }
    if r.Step? {
      CodeIsHotp(hmac, key, r.step);
    }
  }
}

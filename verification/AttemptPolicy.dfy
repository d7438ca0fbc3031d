/**
 The back-off policy for sign-in attempts on one account: how long an account waits
 after its n-th attempt, and whether an attempt made now is admitted. Instants are
 whole milliseconds on one clock.
 */
module AttemptPolicy {
  import opened Common

  const ATTEMPTS_BEFORE_DELAY := 5
  const FIRST_DELAY_SECONDS := 1
  const LONGEST_DELAY_SECONDS := 60
  const FORGET_AFTER_SECONDS := 3600
  const ATTEMPTS_PER_CHALLENGE := 5

  datatype AttemptState = AttemptState(attempts: nat, lastAttemptAt: int, delayedUntil: int)

  datatype Admission =
    | Admitted(attempts: nat, delayedUntil: int)
    | Delayed(retryAfterSeconds: int)

  function DelaySecondsAfter(attempts: nat): int {
    if attempts < ATTEMPTS_BEFORE_DELAY then 0
    else
      var doublings := Min(attempts - ATTEMPTS_BEFORE_DELAY, 30);
      Min(LONGEST_DELAY_SECONDS, FIRST_DELAY_SECONDS * Pow2(doublings))
  }

  function CeilSeconds(ms: int): int {
    (ms + 999) / 1000
  }

  predicate Forgotten(state: AttemptState, now: int) {
    now - state.lastAttemptAt >= FORGET_AFTER_SECONDS * 1000
  }

  function AdmitAttempt(state: Option<AttemptState>, now: int): Admission {
    if state.Some? && state.value.delayedUntil > now then
      Delayed(Max(1, CeilSeconds(state.value.delayedUntil - now)))
    else
      var attempts := if state.None? || Forgotten(state.value, now) then 1 else state.value.attempts + 1;
      Admitted(attempts, now + DelaySecondsAfter(attempts) * 1000)
  }

  lemma Pow2AtLeast64(n: nat)
    requires n >= 6
    ensures Pow2(n) >= 64
  {
    if n > 6 {
      Pow2AtLeast64(n - 1);
    } else {
      assert Pow2(5) == 32 && Pow2(3) == 8;
    }
  }

  /**
   The whole schedule: nothing up to the fourth attempt, then a delay that doubles from
   one second and stays at a minute from the eleventh attempt on.
   */
  lemma DelaySchedule(n: nat)
    ensures n < 5 ==> DelaySecondsAfter(n) == 0
    ensures DelaySecondsAfter(5) == 1 && DelaySecondsAfter(6) == 2 && DelaySecondsAfter(7) == 4
    ensures DelaySecondsAfter(8) == 8 && DelaySecondsAfter(9) == 16 && DelaySecondsAfter(10) == 32
    ensures n >= 11 ==> DelaySecondsAfter(n) == LONGEST_DELAY_SECONDS
    ensures 0 <= DelaySecondsAfter(n) <= DelaySecondsAfter(n + 1) <= LONGEST_DELAY_SECONDS
  {
    assert Pow2(2) == 4 && Pow2(3) == 8 && Pow2(4) == 16 && Pow2(5) == 32;
    if n >= 11 {
      Pow2AtLeast64(Min(n - 5, 30));
      Pow2AtLeast64(Min(n - 4, 30));
    } else if n == 10 {
      Pow2AtLeast64(6);
    }
  }

  /** The delay in milliseconds before the attempt after the n-th, read off a table. */
  function WaitMs(n: nat): int {
    if n < 5 then 0
    else if n < 11 then [1_000, 2_000, 4_000, 8_000, 16_000, 32_000][n - 5]
    else 60_000
  }

  /**
   The answer to a claim, in numbers: refused exactly before the account's delay is over, with
   the whole seconds left, rounded up; and else counted, from one again where the account was
   idle for an hour to the millisecond, and delayed by the schedule from now.
   */
  lemma AdmissionExactly(state: Option<AttemptState>, now: int)
    ensures var admission := AdmitAttempt(state, now);
            if state.Some? && now < state.value.delayedUntil then
              && admission.Delayed?
              && 1000 * (admission.retryAfterSeconds - 1) < state.value.delayedUntil - now <= 1000 * admission.retryAfterSeconds
            else
              && admission.Admitted?
              && (state.None? || now - state.value.lastAttemptAt >= 3_600_000 ==> admission.attempts == 1)
              && (state.Some? && now - state.value.lastAttemptAt < 3_600_000 ==> admission.attempts == state.value.attempts + 1)
              && admission.delayedUntil == now + WaitMs(admission.attempts)
  {
    var admission := AdmitAttempt(state, now);
    if admission.Admitted? {
      DelaySchedule(admission.attempts);
    }
  }

  /**
   How many attempt-minutes an account may be ahead of one attempt per minute once it has
   reached `attempts`: 60 per attempt less the delays already served on the way.
   */
  function Headroom(attempts: nat): int {
    if attempts <= 5 then 60 * attempts
    else if attempts == 6 then 359
    else if attempts == 7 then 417
    else if attempts == 8 then 473
    else if attempts == 9 then 525
    else if attempts == 10 then 569
    else 597
  }

  /** One more attempt spends a minute of headroom and earns back the delay it waited for. */
  lemma HeadroomStep(attempts: nat)
    requires attempts >= 1
    ensures Headroom(attempts + 1) == Headroom(attempts) + 60 - DelaySecondsAfter(attempts)
    ensures 60 <= Headroom(attempts) <= 597
  {
    DelaySchedule(attempts);
  }
}

/**
 The store behind the back-off policy: one row per account that is locked, read, decided
 on and written in one transaction, one row per two-factor challenge, and a sweep that
 deletes rows nothing depends on any more.
 */
module AttemptStore {
  import opened Common
  import opened AttemptPolicy

  datatype ChallengeRow = ChallengeRow(attempts: nat, expiresAt: int)

  datatype Store = Store(accounts: map<string, AttemptState>, challenges: map<string, ChallengeRow>)

  datatype ChallengeAdmission =
    | ChallengeAdmitted(attempts: nat)
    | ChallengeDelayed(retryAfterSeconds: int)
    | Exhausted

  /** The row a claim locks: the account's own, or a zero-attempt one inserted at `lockedAt`. */
  function LockedRow(s: Store, key: string, lockedAt: int): AttemptState {
    if key in s.accounts then s.accounts[key] else AttemptState(0, lockedAt, lockedAt)
  }

  function Lock(s: Store, key: string, lockedAt: int): Store {
    s.(accounts := s.accounts[key := LockedRow(s, key, lockedAt)])
  }

  function Record(s: Store, key: string, admission: Admission, now: int): Store
    requires admission.Admitted?
  {
    s.(accounts := s.accounts[key := AttemptState(admission.attempts, now, admission.delayedUntil)])
  }

  function ClaimAccount(s: Store, key: string, lockedAt: int, now: int): (Store, Admission) {
    var locked := Lock(s, key, lockedAt);
    var admission := AdmitAttempt(Some(locked.accounts[key]), now);
    if admission.Admitted? then (Record(locked, key, admission, now), admission) else (locked, admission)
  }

  function UsedIn(challenges: map<string, ChallengeRow>, jti: string): nat {
    if jti in challenges then challenges[jti].attempts else 0
  }

  function Used(s: Store, jti: string): nat {
    UsedIn(s.challenges, jti)
  }

  function ClaimChallenge(s: Store, key: string, jti: string, expiresAt: int, limit: nat, lockedAt: int, now: int)
    : (Store, ChallengeAdmission)
  {
    var locked := Lock(s, key, lockedAt);
    if Used(s, jti) >= limit then (locked, Exhausted)
    else
      var admission := AdmitAttempt(Some(locked.accounts[key]), now);
      if admission.Delayed? then (locked, ChallengeDelayed(admission.retryAfterSeconds))
      else
        var row := if jti in s.challenges then s.challenges[jti].(attempts := s.challenges[jti].attempts + 1)
                   else ChallengeRow(1, expiresAt);
        (Record(locked, key, admission, now).(challenges := s.challenges[jti := row]),
         ChallengeAdmitted(admission.attempts))
  }

  function ClearAccount(s: Store, key: string): Store {
    s.(accounts := s.accounts - {key})
  }

  /** What the sweep deletes: rows idle for longer than the memory whose delay has also run out. */
  predicate Sweepable(row: AttemptState, now: int) {
    row.lastAttemptAt < now - FORGET_AFTER_SECONDS * 1000 && row.delayedUntil < now
  }

  function KeptAccounts(accounts: map<string, AttemptState>, now: int): map<string, AttemptState> {
    map key | key in accounts && !Sweepable(accounts[key], now) :: accounts[key]
  }

  function KeptChallenges(challenges: map<string, ChallengeRow>, now: int): map<string, ChallengeRow> {
    map jti | jti in challenges && !(challenges[jti].expiresAt < now) :: challenges[jti]
  }

  function SweepStore(s: Store, now: int): Store {
    Store(KeptAccounts(s.accounts, now), KeptChallenges(s.challenges, now))
  }

  /** The store as the adapter keeps it, changed in place inside each transaction. */
  class SignInAttempts {
    var accounts: map<string, AttemptState>
    var challenges: map<string, ChallengeRow>

    function State(): Store
      reads this
    {
      Store(accounts, challenges)
    }

    constructor ()
      ensures State() == Store(map[], map[])
    {
      accounts, challenges := map[], map[];
    }

    method LockAccount(key: string, lockedAt: int) returns (row: AttemptState)
      modifies this
      ensures State() == Lock(old(State()), key, lockedAt)
      ensures key in accounts && row == accounts[key]
    {
      if key !in accounts {
        accounts := accounts[key := AttemptState(0, lockedAt, lockedAt)];
      }
      row := accounts[key];
      assert old(accounts)[key := row] == accounts;
    }

    method ClaimAccountAttempt(key: string, lockedAt: int, now: int) returns (admission: Admission)
      modifies this
      ensures (State(), admission) == ClaimAccount(old(State()), key, lockedAt, now)
    {
      var row := LockAccount(key, lockedAt);
      admission := AdmitAttempt(Some(row), now);
      if admission.Delayed? {
        return;
      }
      accounts := accounts[key := AttemptState(admission.attempts, now, admission.delayedUntil)];
    }

    method ClaimChallengeAttempt(key: string, jti: string, expiresAt: int, limit: nat, lockedAt: int, now: int)
      returns (outcome: ChallengeAdmission)
      modifies this
      ensures (State(), outcome) == ClaimChallenge(old(State()), key, jti, expiresAt, limit, lockedAt, now)
    {
      var row := LockAccount(key, lockedAt);
      var used := if jti in challenges then challenges[jti].attempts else 0;
      if used >= limit {
        return Exhausted;
      }
      var admission := AdmitAttempt(Some(row), now);
      if admission.Delayed? {
        return ChallengeDelayed(admission.retryAfterSeconds);
      }
      if jti !in challenges {
        challenges := challenges[jti := ChallengeRow(1, expiresAt)];
      } else {
        challenges := challenges[jti := challenges[jti].(attempts := challenges[jti].attempts + 1)];
      }
      accounts := accounts[key := AttemptState(admission.attempts, now, admission.delayedUntil)];
      outcome := ChallengeAdmitted(admission.attempts);
    }

    method ClearAccountAttempts(key: string)
      modifies this
      ensures State() == ClearAccount(old(State()), key)
      ensures key !in accounts && challenges == old(challenges)
      ensures forall k :: k != key ==> Lookup(accounts, k) == Lookup(old(accounts), k)
    {
      accounts := accounts - {key};
    }

    method Sweep(now: int)
      modifies this
      ensures State() == SweepStore(old(State()), now)
      ensures forall k :: k in accounts <==> k in old(accounts) && !Sweepable(old(accounts)[k], now)
      ensures forall k :: k in accounts ==> accounts[k] == old(accounts)[k]
      ensures forall j :: j in challenges <==> j in old(challenges) && now <= old(challenges)[j].expiresAt
      ensures forall j :: j in challenges ==> challenges[j] == old(challenges)[j]
    {
      accounts := map key | key in accounts && !Sweepable(accounts[key], now) :: accounts[key];
      challenges := map jti | jti in challenges && !(challenges[jti].expiresAt < now) :: challenges[jti];
    }
  }

  // ----- runs -----

  datatype Op =
    | Claim(key: string, lockedAt: int, now: int)
    | Answer(key: string, jti: string, expiresAt: int, lockedAt: int, now: int)
    | Clear(key: string)
    | Sweep(now: int)

  datatype Outcome =
    | OfAccount(admission: Admission)
    | OfChallenge(answer: ChallengeAdmission)
    | Done

  function Step(s: Store, op: Op): (Store, Outcome) {
    match op
    case Claim(key, lockedAt, now) =>
      var r := ClaimAccount(s, key, lockedAt, now); (r.0, OfAccount(r.1))
    case Answer(key, jti, expiresAt, lockedAt, now) =>
      var r := ClaimChallenge(s, key, jti, expiresAt, ATTEMPTS_PER_CHALLENGE, lockedAt, now); (r.0, OfChallenge(r.1))
    case Clear(key) => (ClearAccount(s, key), Done)
    case Sweep(now) => (SweepStore(s, now), Done)
  }

  function EndOf(op: Op, from: int): int {
    if op.Clear? then from else op.now
  }

  /** One clock for the whole run: no step reads an earlier instant than the step before it. */
  predicate Timed(ops: seq<Op>, from: int) {
    ops == [] ||
    (from <= EndOf(ops[0], from) &&
     ((ops[0].Claim? || ops[0].Answer?) ==> from <= ops[0].lockedAt <= ops[0].now) &&
     Timed(ops[1..], EndOf(ops[0], from)))
  }

  function Run(s: Store, ops: seq<Op>): seq<Outcome>
    decreases |ops|
  {
    if ops == [] then [] else [Step(s, ops[0]).1] + Run(Step(s, ops[0]).0, ops[1..])
  }

  predicate AdmittedOn(op: Op, outcome: Outcome, key: string) {
    match outcome
    case OfAccount(a) => a.Admitted? && op.Claim? && op.key == key
    case OfChallenge(c) => c.ChallengeAdmitted? && op.Answer? && op.key == key
    case Done => false
  }

  /** When the run admitted an attempt on `key`, in order. */
  function AdmittedTimes(s: Store, ops: seq<Op>, key: string): seq<int>
    decreases |ops|
  {
    if ops == [] then []
    else
      var r := Step(s, ops[0]);
      (if AdmittedOn(ops[0], r.1, key) then [EndOf(ops[0], 0)] else []) + AdmittedTimes(r.0, ops[1..], key)
  }

  // ----- the guess rate -----

  /** `n` attempts were admitted from `first` to `last`, and the account's row accounts for them. */
  ghost predicate Paced(row: Option<AttemptState>, now: int, n: nat, first: int, last: int) {
    && first <= last <= now
    && (|| (row.Some? && row.value.attempts >= 1 && row.value.lastAttemptAt == last
            && row.value.delayedUntil == last + 1000 * DelaySecondsAfter(row.value.attempts)
            && 60_000 * n <= last - first + 1000 * Headroom(row.value.attempts))
        || ((row.None? || (row.value.attempts == 0 && row.value.delayedUntil <= now))
            && now - last >= FORGET_AFTER_SECONDS * 1000
            && 60_000 * n <= last - first + 597_000))
  }

  /** A claim against a paced row leaves it paced, with one more attempt when it was admitted. */
  lemma PacedClaim(row: AttemptState, present: bool, lockedAt: int, t: int, now: int, n: nat, first: int, last: int)
    requires Paced(if present then Some(row) else None, t, n, first, last)
    requires t <= lockedAt <= now
    requires !present ==> row == AttemptState(0, lockedAt, lockedAt)
    ensures Paced(Some(row), now, n, first, last)
    ensures var a := AdmitAttempt(Some(row), now);
            a.Admitted? ==> Paced(Some(AttemptState(a.attempts, now, a.delayedUntil)), now, n + 1, first, now)
  {
    DelaySchedule(row.attempts);
    if row.attempts >= 1 {
      HeadroomStep(row.attempts);
    }
    HeadroomStep(1);
    HeadroomStep(row.attempts + 1);
  }

  lemma PacedAttempt(s: Store, op: Op, t: int, n: nat, first: int, last: int)
    requires (op.Claim? || op.Answer?) && Timed([op], t)
    requires Paced(Lookup(s.accounts, op.key), t, n, first, last)
    ensures var r := Step(s, op);
            var admitted := AdmittedOn(op, r.1, op.key);
            Paced(Lookup(r.0.accounts, op.key), op.now, if admitted then n + 1 else n, first, if admitted then op.now else last)
  {
    PacedClaim(LockedRow(s, op.key, op.lockedAt), op.key in s.accounts, op.lockedAt, t, op.now, n, first, last);
  }

  lemma PacedRest(s: Store, op: Op, key: string, t: int, n: nat, first: int, last: int)
    requires Paced(Lookup(s.accounts, key), t, n, first, last)
    requires Timed([op], t) && op != Clear(key) && !((op.Claim? || op.Answer?) && op.key == key)
    ensures Paced(Lookup(Step(s, op).0.accounts, key), EndOf(op, t), n, first, last)
  {
    if op.Sweep? && key in s.accounts && Sweepable(s.accounts[key], op.now) && s.accounts[key].attempts >= 1 {
      HeadroomStep(s.accounts[key].attempts);
    }
  }

  /** Any step of the store keeps an account paced, whichever account the step is about. */
  lemma PacedStep(s: Store, op: Op, key: string, t: int, n: nat, first: int, last: int)
    requires Paced(Lookup(s.accounts, key), t, n, first, last)
    requires Timed([op], t) && op != Clear(key)
    ensures var r := Step(s, op);
            var admitted := AdmittedOn(op, r.1, key);
            Paced(Lookup(r.0.accounts, key), EndOf(op, t), if admitted then n + 1 else n, first,
                  if admitted then EndOf(op, t) else last)
  {
    if (op.Claim? || op.Answer?) && op.key == key {
      PacedAttempt(s, op, t, n, first, last);
    } else {
      PacedRest(s, op, key, t, n, first, last);
    }
  }

  lemma {:induction false} RateFrom(s: Store, ops: seq<Op>, key: string, now: int, n: nat, first: int, last: int)
    requires Paced(Lookup(s.accounts, key), now, n, first, last)
    requires Timed(ops, now) && Clear(key) !in ops
    ensures var ts := AdmittedTimes(s, ops, key);
            60_000 * (n + |ts|) <= (if ts == [] then last else ts[|ts| - 1]) - first + 597_000
    decreases |ops|
  {
    if ops == [] {
      if key in s.accounts && s.accounts[key].attempts >= 1 {
        HeadroomStep(s.accounts[key].attempts);
      }
    } else {
      var op, r := ops[0], Step(s, ops[0]);
      PacedStep(s, op, key, now, n, first, last);
      if AdmittedOn(op, r.1, key) {
        RateFrom(r.0, ops[1..], key, op.now, n + 1, first, op.now);
      } else {
        RateFrom(r.0, ops[1..], key, EndOf(op, now), n, first, last);
      }
    }
  }

  /**
   The guess rate: whatever rows the run starts from, however many other accounts, refusals,
   sweeps and one-hour forgets it holds, N attempts admitted on one account that is not
   cleared take at least 60 N - 597 seconds from the first to the last.
   */
  lemma {:induction false} GuessRateBound(s: Store, ops: seq<Op>, key: string, start: int)
    requires Timed(ops, start) && Clear(key) !in ops
    ensures var ts := AdmittedTimes(s, ops, key);
            ts != [] ==> 60 * 1000 * |ts| <= (ts[|ts| - 1] - ts[0]) + 597 * 1000
    decreases |ops|
  {
    if ops != [] {
      var op, r := ops[0], Step(s, ops[0]);
      var t := EndOf(op, start);
      if AdmittedOn(op, r.1, key) {
        HeadroomStep(r.0.accounts[key].attempts);
        RateFrom(r.0, ops[1..], key, t, 1, t, t);
      } else {
        GuessRateBound(r.0, ops[1..], key, t);
      }
    }
  }

  /** The earliest instant at which attempt `k` of an unbroken burst can be admitted. */
  function BurstAt(k: nat): int
    requires k >= 1
  {
    if k == 1 then 0 else BurstAt(k - 1) + 1000 * DelaySecondsAfter(k - 1)
  }

  function Burst(key: string, k: nat, n: nat): seq<Op>
    requires 1 <= k
    decreases n + 1 - k
  {
    if k > n then [] else [Claim(key, BurstAt(k), BurstAt(k))] + Burst(key, k + 1, n)
  }

  ghost predicate BurstReached(s: Store, key: string, k: nat)
    requires k >= 1
  {
    if k == 1 then key !in s.accounts
    else key in s.accounts && s.accounts[key] == AttemptState(k - 1, BurstAt(k - 1), BurstAt(k))
  }

  lemma BurstStep(s: Store, key: string, k: nat)
    requires 1 <= k && BurstReached(s, key, k)
    ensures var r := Step(s, Claim(key, BurstAt(k), BurstAt(k)));
            BurstReached(r.0, key, k + 1) && r.1 == OfAccount(Admitted(k, BurstAt(k + 1)))
    ensures k > 1 ==> BurstAt(k - 1) <= BurstAt(k)
  {
    DelaySchedule(k - 1);
  }

  lemma {:induction false} BurstTimed(key: string, k: nat, n: nat)
    requires 1 <= k <= n + 1
    ensures Timed(Burst(key, k, n), if k == 1 then 0 else BurstAt(k - 1))
    decreases n + 1 - k
  {
    if k <= n {
      var ops := Burst(key, k, n);
      if k > 1 {
        DelaySchedule(k - 1);
      }
      assert ops[0] == Claim(key, BurstAt(k), BurstAt(k)) && ops[1..] == Burst(key, k + 1, n);
      BurstTimed(key, k + 1, n);
    }
  }

  /** `ts` are the instants of a burst from its `k`-th attempt on. */
  ghost predicate BurstTimes(ts: seq<int>, k: nat)
    requires k >= 1
  {
    forall i :: 0 <= i < |ts| ==> ts[i] == BurstAt(k + i)
  }

  lemma BurstTimesCons(ts: seq<int>, k: nat)
    requires k >= 1 && BurstTimes(ts, k + 1)
    ensures BurstTimes([BurstAt(k)] + ts, k)
  {
    var all := [BurstAt(k)] + ts;
    forall i | 0 <= i < |all|
      ensures all[i] == BurstAt(k + i)
    {
      if i > 0 {
        assert all[i] == ts[i - 1] && k + i == k + 1 + (i - 1);
      }
    }
  }

  lemma BurstAdmitsFirst(s: Store, key: string, k: nat, rest: seq<Op>)
    requires 1 <= k && BurstReached(s, key, k)
    ensures var op := Claim(key, BurstAt(k), BurstAt(k));
            && BurstReached(Step(s, op).0, key, k + 1)
            && AdmittedTimes(s, [op] + rest, key) == [BurstAt(k)] + AdmittedTimes(Step(s, op).0, rest, key)
  {
    var op := Claim(key, BurstAt(k), BurstAt(k));
    BurstStep(s, key, k);
    assert ([op] + rest)[1..] == rest;
  }

  lemma {:induction false} BurstRuns(s: Store, key: string, k: nat, n: nat)
    requires 1 <= k <= n + 1 && BurstReached(s, key, k)
    ensures var ts := AdmittedTimes(s, Burst(key, k, n), key);
            |ts| == n + 1 - k && BurstTimes(ts, k)
    decreases n + 1 - k
  {
    if k <= n {
      var r := Step(s, Claim(key, BurstAt(k), BurstAt(k)));
      BurstAdmitsFirst(s, key, k, Burst(key, k + 1, n));
      BurstRuns(r.0, key, k + 1, n);
      BurstTimesCons(AdmittedTimes(r.0, Burst(key, k + 1, n), key), k);
    }
  }

  lemma {:induction false} BurstLength(n: nat)
    requires n >= 11
    ensures 60 * 1000 * n == BurstAt(n) + 597 * 1000
  {
    DelaySchedule(n);
    if n == 11 {
      DelaySchedule(1);
      DelaySchedule(2);
      DelaySchedule(3);
      DelaySchedule(4);
      assert BurstAt(5) == 0;
      assert BurstAt(8) == 7000;
    } else {
      DelaySchedule(n - 1);
      BurstLength(n - 1);
    }
  }

  /** No smaller constant would do: a fresh account met the bound exactly, for every N from eleven. */
  lemma GuessRateIsTight(key: string, n: nat)
    requires n >= 11
    ensures var ops, empty := Burst(key, 1, n), Store(map[], map[]);
            && Timed(ops, 0)
            && var ts := AdmittedTimes(empty, ops, key);
            && |ts| == n
            && 60 * 1000 * n == (ts[n - 1] - ts[0]) + 597 * 1000
  {
    BurstRuns(Store(map[], map[]), key, 1, n);
    BurstTimed(key, 1, n);
    BurstLength(n);
  }
}

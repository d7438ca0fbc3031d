/**
 The locking, sweeping store against the plain map that is never swept: every decision the
 first makes is the decision the second makes. And what a refused caller may rely on.
 */
module AttemptRefinement {
  import opened Common
  import opened AttemptPolicy
  import opened AttemptStore

  /** The reference: rows only for admitted attempts, counts kept for ever. */
  datatype Plain = Plain(accounts: map<string, AttemptState>, challenges: map<string, nat>)

  function PlainClaim(p: Plain, key: string, now: int): (Plain, Admission) {
    var admission := AdmitAttempt(Lookup(p.accounts, key), now);
    if admission.Delayed? then (p, admission)
    else (p.(accounts := p.accounts[key := AttemptState(admission.attempts, now, admission.delayedUntil)]), admission)
  }

  function PlainAnswer(p: Plain, key: string, jti: string, limit: nat, now: int): (Plain, ChallengeAdmission) {
    var used := if jti in p.challenges then p.challenges[jti] else 0;
    if used >= limit then (p, Exhausted)
    else
      var r := PlainClaim(p, key, now);
      if r.1.Delayed? then (p, ChallengeDelayed(r.1.retryAfterSeconds))
      else (r.0.(challenges := p.challenges[jti := used + 1]), ChallengeAdmitted(r.1.attempts))
  }

  function PlainStep(p: Plain, op: Op): (Plain, Outcome) {
    match op
    case Claim(key, _, now) =>
      var r := PlainClaim(p, key, now); (r.0, OfAccount(r.1))
    case Answer(key, jti, _, _, now) =>
      var r := PlainAnswer(p, key, jti, ATTEMPTS_PER_CHALLENGE, now); (r.0, OfChallenge(r.1))
    case Clear(key) => (p.(accounts := p.accounts - {key}), Done)
    case Sweep(_) => (p, Done)
  }

  function PlainRun(p: Plain, ops: seq<Op>): seq<Outcome>
    decreases |ops|
  {
    if ops == [] then [] else [PlainStep(p, ops[0]).1] + PlainRun(PlainStep(p, ops[0]).0, ops[1..])
  }

  /** A row that decides nothing from `now` on: absent, forgotten, or just inserted by a lock. */
  ghost predicate Blank(row: Option<AttemptState>, now: int) {
    row.None? || (row.value.delayedUntil <= now && (row.value.attempts == 0 || Forgotten(row.value, now)))
  }

  ghost predicate RowsAgree(row: Option<AttemptState>, plain: Option<AttemptState>, now: int) {
    row == plain || (Blank(row, now) && Blank(plain, now))
  }

  function Given(p: Plain, jti: string): nat {
    if jti in p.challenges then p.challenges[jti] else 0
  }

  /** The two stores at one instant: rows that decide alike, and no count above the reference's. */
  ghost predicate Tracks(s: Store, p: Plain, now: int) {
    && (forall key :: RowsAgree(Lookup(s.accounts, key), Lookup(p.accounts, key), now))
    && (forall jti :: Used(s, jti) <= Given(p, jti))
  }

  /** The answer meets a challenge that has had all its answers, and whose row says otherwise. */
  predicate Reopens(s: Store, p: Plain, op: Op) {
    op.Answer? && Used(s, op.jti) < ATTEMPTS_PER_CHALLENGE <= Given(p, op.jti)
  }

  /** No answer of the run meets such a challenge; both stores take every step. */
  predicate NeverReopens(s: Store, p: Plain, ops: seq<Op>)
    decreases |ops|
  {
    ops == [] || (!Reopens(s, p, ops[0]) && NeverReopens(Step(s, ops[0]).0, PlainStep(p, ops[0]).0, ops[1..]))
  }

  lemma BlankAdmits(row: Option<AttemptState>, t: int, now: int)
    requires Blank(row, t) && t <= now
    ensures AdmitAttempt(row, now) == Admitted(1, now)
  {
  }

  lemma RowsAgreeLater(row: Option<AttemptState>, plain: Option<AttemptState>, t: int, now: int)
    requires RowsAgree(row, plain, t) && t <= now
    ensures RowsAgree(row, plain, now)
    ensures AdmitAttempt(row, now) == AdmitAttempt(plain, now)
  {
    if row != plain {
      BlankAdmits(row, t, now);
      BlankAdmits(plain, t, now);
    }
  }

  /** Locking inserts at most a blank row, so the decision is the plain store's decision. */
  lemma LockTracks(s: Store, p: Plain, key: string, t: int, lockedAt: int, now: int)
    requires Tracks(s, p, t) && t <= lockedAt <= now
    ensures Tracks(Lock(s, key, lockedAt), p, now)
    ensures AdmitAttempt(Some(LockedRow(s, key, lockedAt)), now) == AdmitAttempt(Lookup(p.accounts, key), now)
  {
    var locked := Lock(s, key, lockedAt);
    forall k
      ensures RowsAgree(Lookup(locked.accounts, k), Lookup(p.accounts, k), now)
    {
      RowsAgreeLater(Lookup(s.accounts, k), Lookup(p.accounts, k), t, now);
      if k == key && key !in s.accounts {
        assert Blank(Lookup(locked.accounts, k), now);
      }
    }
    forall jti
      ensures Used(locked, jti) <= Given(p, jti)
    {
      assert Used(locked, jti) == Used(s, jti);
    }
    RowsAgreeLater(Lookup(locked.accounts, key), Lookup(p.accounts, key), now, now);
  }

  lemma ClaimTracks(s: Store, p: Plain, key: string, t: int, lockedAt: int, now: int)
    requires Tracks(s, p, t) && t <= lockedAt <= now
    ensures ClaimAccount(s, key, lockedAt, now).1 == PlainClaim(p, key, now).1
    ensures Tracks(ClaimAccount(s, key, lockedAt, now).0, PlainClaim(p, key, now).0, now)
  {
    LockTracks(s, p, key, t, lockedAt, now);
    var locked, s', p' := Lock(s, key, lockedAt), ClaimAccount(s, key, lockedAt, now).0, PlainClaim(p, key, now).0;
    forall k
      ensures RowsAgree(Lookup(s'.accounts, k), Lookup(p'.accounts, k), now)
    {
      assert RowsAgree(Lookup(locked.accounts, k), Lookup(p.accounts, k), now);
    }
    forall jti
      ensures Used(s', jti) <= Given(p', jti)
    {
      assert Used(s, jti) <= Given(p, jti);
    }
  }

  /** The two stores answer a challenge alike exactly when the answer does not reopen it. */
  lemma AnswerTracks(s: Store, p: Plain, op: Op, t: int)
    requires Tracks(s, p, t) && op.Answer? && Timed([op], t)
    ensures Step(s, op).1 == PlainStep(p, op).1 <==> !Reopens(s, p, op)
    ensures !Reopens(s, p, op) ==> Tracks(Step(s, op).0, PlainStep(p, op).0, op.now)
  {
    LockTracks(s, p, op.key, t, op.lockedAt, op.now);
    ClaimTracks(s, p, op.key, t, op.lockedAt, op.now);
    assert Used(s, op.jti) <= Given(p, op.jti);
    if !Reopens(s, p, op) {
      var s', p' := Step(s, op).0, PlainStep(p, op).0;
      if Step(s, op).1.answer.ChallengeAdmitted? {
        assert s'.accounts == ClaimAccount(s, op.key, op.lockedAt, op.now).0.accounts;
        assert p'.accounts == PlainClaim(p, op.key, op.now).0.accounts;
        forall jti
          ensures Used(s', jti) <= Given(p', jti)
        {
          assert Used(s, jti) <= Given(p, jti);
        }
      } else {
        assert s' == Lock(s, op.key, op.lockedAt) && p' == p;
      }
    }
  }

  lemma SweepTracks(s: Store, p: Plain, t: int, now: int)
    requires Tracks(s, p, t) && t <= now
    ensures Tracks(SweepStore(s, now), p, now)
  {
    forall k
      ensures RowsAgree(Lookup(SweepStore(s, now).accounts, k), Lookup(p.accounts, k), now)
    {
      RowsAgreeLater(Lookup(s.accounts, k), Lookup(p.accounts, k), t, now);
    }
    forall jti
      ensures Used(SweepStore(s, now), jti) <= Given(p, jti)
    {
      assert Used(s, jti) <= Given(p, jti);
    }
  }

  lemma ClearTracks(s: Store, p: Plain, key: string, t: int)
    requires Tracks(s, p, t)
    ensures Tracks(ClearAccount(s, key), p.(accounts := p.accounts - {key}), t)
  {
    var s', p' := ClearAccount(s, key), p.(accounts := p.accounts - {key});
    forall k
      ensures RowsAgree(Lookup(s'.accounts, k), Lookup(p'.accounts, k), t)
    {
      assert RowsAgree(Lookup(s.accounts, k), Lookup(p.accounts, k), t);
    }
    forall jti
      ensures Used(s', jti) <= Given(p', jti)
    {
      assert Used(s, jti) <= Given(p, jti);
    }
  }

  /** One step of both stores: the same answer exactly when it reopens nothing, and then they still track. */
  lemma StepTracks(s: Store, p: Plain, op: Op, t: int)
    requires Tracks(s, p, t) && Timed([op], t)
    ensures Step(s, op).1 == PlainStep(p, op).1 <==> !Reopens(s, p, op)
    ensures !Reopens(s, p, op) ==> Tracks(Step(s, op).0, PlainStep(p, op).0, EndOf(op, t))
  {
    match op
    case Claim(key, lockedAt, now) => ClaimTracks(s, p, key, t, lockedAt, now);
    case Answer(_, _, _, _, _) => AnswerTracks(s, p, op, t);
    case Clear(key) => ClearTracks(s, p, key, t);
    case Sweep(now) => SweepTracks(s, p, t, now);
  }

  /**
   Refinement, exactly: over every run the locking, sweeping store decides as the plain map
   does if and only if no answer meets a challenge that has had its five answers and was swept.
   */
  lemma {:induction false} StoreRefinesPlain(s: Store, p: Plain, ops: seq<Op>, t: int)
    requires Tracks(s, p, t) && Timed(ops, t)
    ensures Run(s, ops) == PlainRun(p, ops) <==> NeverReopens(s, p, ops)
    decreases |ops|
  {
    if ops != [] {
      var op := ops[0];
      var s', p' := Step(s, op).0, PlainStep(p, op).0;
      StepTracks(s, p, op, t);
      assert Run(s, ops)[0] == Step(s, op).1 && PlainRun(p, ops)[0] == PlainStep(p, op).1;
      if !Reopens(s, p, op) {
        StoreRefinesPlain(s', p', ops[1..], EndOf(op, t));
        assert Run(s, ops)[1..] == Run(s', ops[1..]) && PlainRun(p, ops)[1..] == PlainRun(p', ops[1..]);
        assert Run(s, ops) == [Run(s, ops)[0]] + Run(s', ops[1..]);
        assert PlainRun(p, ops) == [PlainRun(p, ops)[0]] + PlainRun(p', ops[1..]);
      }
    }
  }

  // ----- reopening takes an expired challenge and a sweep -----

  /** `expiry` gives each challenge's fixed expiry; until then the counts are equal. */
  ghost predicate Agree(s: Store, p: Plain, expiry: map<string, int>, now: int) {
    && Tracks(s, p, now)
    && (forall jti :: jti in s.challenges ==> jti in expiry && s.challenges[jti].expiresAt == expiry[jti])
    && (forall jti :: jti in expiry && now <= expiry[jti] ==> Used(s, jti) == Given(p, jti))
  }

  /** Every answer names its challenge's own expiry. */
  ghost predicate Named(op: Op, expiry: map<string, int>) {
    op.Answer? ==> op.jti in expiry && op.expiresAt == expiry[op.jti]
  }

  ghost predicate InTime(op: Op) {
    op.Answer? ==> op.now <= op.expiresAt
  }

  /** From empty stores, for any challenges: the runs start in agreement. */
  lemma FreshStoresAgree(expiry: map<string, int>, t: int)
    ensures Agree(Store(map[], map[]), Plain(map[], map[]), expiry, t)
  {
    forall jti
      ensures Used(Store(map[], map[]), jti) == Given(Plain(map[], map[]), jti)
    {
    }
  }

  /** An answer that reopens its challenge comes after the challenge's expiry. */
  lemma ReopeningIsLate(s: Store, p: Plain, expiry: map<string, int>, op: Op, t: int)
    requires Agree(s, p, expiry, t) && Named(op, expiry) && Timed([op], t)
    ensures Reopens(s, p, op) ==> op.now > op.expiresAt
  {
  }

  lemma StepAgrees(s: Store, p: Plain, expiry: map<string, int>, op: Op, t: int)
    requires Agree(s, p, expiry, t) && Timed([op], t) && Named(op, expiry) && !Reopens(s, p, op)
    ensures Agree(Step(s, op).0, PlainStep(p, op).0, expiry, EndOf(op, t))
  {
    StepTracks(s, p, op, t);
    var s', p' := Step(s, op).0, PlainStep(p, op).0;
    forall jti | jti in s'.challenges
      ensures jti in expiry && s'.challenges[jti].expiresAt == expiry[jti]
    {
      assert (op.Answer? && jti == op.jti) || (jti in s.challenges && s'.challenges[jti] == s.challenges[jti]);
    }
    forall jti | jti in expiry && EndOf(op, t) <= expiry[jti]
      ensures Used(s', jti) == Given(p', jti)
    {
      assert Used(s, jti) == Given(p, jti);
    }
  }

  lemma {:induction false} InTimeNeverReopens(s: Store, p: Plain, expiry: map<string, int>, ops: seq<Op>, t: int)
    requires Agree(s, p, expiry, t) && Timed(ops, t)
    requires forall i :: 0 <= i < |ops| ==> Named(ops[i], expiry) && InTime(ops[i])
    ensures NeverReopens(s, p, ops)
    decreases |ops|
  {
    if ops != [] {
      ReopeningIsLate(s, p, expiry, ops[0], t);
      StepAgrees(s, p, expiry, ops[0], t);
      InTimeNeverReopens(Step(s, ops[0]).0, PlainStep(p, ops[0]).0, expiry, ops[1..], EndOf(ops[0], t));
    }
  }

  /** So on unexpired challenges, from empty stores, every run of the one is a run of the other. */
  lemma UnexpiredRunsAgree(expiry: map<string, int>, ops: seq<Op>, t: int)
    requires Timed(ops, t)
    requires forall i :: 0 <= i < |ops| ==> Named(ops[i], expiry) && InTime(ops[i])
    ensures Run(Store(map[], map[]), ops) == PlainRun(Plain(map[], map[]), ops)
  {
    FreshStoresAgree(expiry, t);
    InTimeNeverReopens(Store(map[], map[]), Plain(map[], map[]), expiry, ops, t);
    StoreRefinesPlain(Store(map[], map[]), Plain(map[], map[]), ops, t);
  }

  /** And every exhausted challenge is reopened by a sweep after its expiry, whoever answers it next. */
  lemma SweepReopens(s: Store, p: Plain, key: string, jti: string, expiresAt: int, t: int, now: int)
    requires Tracks(s, p, t) && t <= now
    requires jti in s.challenges && s.challenges[jti].expiresAt < now && Used(s, jti) >= ATTEMPTS_PER_CHALLENGE
    ensures Reopens(Step(s, Sweep(now)).0, PlainStep(p, Sweep(now)).0, Answer(key, jti, expiresAt, now, now))
  {
    assert Used(s, jti) <= Given(p, jti);
  }

  // ----- slowed, never locked out -----

  /** Every row was written by an admitted attempt or a lock, in the past, and waits at most a minute. */
  ghost predicate Bounded(s: Store, now: int) {
    forall key :: key in s.accounts ==>
      && s.accounts[key].lastAttemptAt <= now
      && s.accounts[key].delayedUntil <= s.accounts[key].lastAttemptAt + LONGEST_DELAY_SECONDS * 1000
  }

  function After(s: Store, ops: seq<Op>): Store
    decreases |ops|
  {
    if ops == [] then s else After(Step(s, ops[0]).0, ops[1..])
  }

  function EndOfRun(ops: seq<Op>, from: int): int
    decreases |ops|
  {
    if ops == [] then from else EndOfRun(ops[1..], EndOf(ops[0], from))
  }

  lemma BoundedStep(s: Store, op: Op, t: int)
    requires Bounded(s, t) && Timed([op], t)
    ensures Bounded(Step(s, op).0, EndOf(op, t))
  {
    if op.Claim? || op.Answer? {
      DelaySchedule(LockedRow(s, op.key, op.lockedAt).attempts + 1);
      DelaySchedule(1);
    }
  }

  lemma {:induction false} BoundedRun(s: Store, ops: seq<Op>, t: int)
    requires Bounded(s, t) && Timed(ops, t)
    ensures Bounded(After(s, ops), EndOfRun(ops, t))
    decreases |ops|
  {
    if ops != [] {
      BoundedStep(s, ops[0], t);
      BoundedRun(Step(s, ops[0]).0, ops[1..], EndOf(ops[0], t));
    }
  }

  /** No step after `t` that leaves `key` unadmitted pushes its delay past `open`. */
  lemma {:induction false} RefusalsNeverExtend(s: Store, ops: seq<Op>, key: string, t: int, open: int)
    requires Timed(ops, t) && EndOfRun(ops, t) <= open
    requires key in s.accounts ==> s.accounts[key].delayedUntil <= open
    requires AdmittedTimes(s, ops, key) == []
    ensures key in After(s, ops).accounts ==> After(s, ops).accounts[key].delayedUntil <= open
    decreases |ops|
  {
    if ops != [] {
      RunEndsLater(ops[1..], EndOf(ops[0], t));
      assert !AdmittedOn(ops[0], Step(s, ops[0]).1, key);
      RefusalsNeverExtend(Step(s, ops[0]).0, ops[1..], key, EndOf(ops[0], t), open);
    }
  }

  lemma {:induction false} RunEndsLater(ops: seq<Op>, t: int)
    requires Timed(ops, t)
    ensures t <= EndOfRun(ops, t)
    decreases |ops|
  {
    if ops != [] {
      RunEndsLater(ops[1..], EndOf(ops[0], t));
    }
  }

  /** The wait a refusal names, of a claim or of an answer. */
  function WaitNamed(outcome: Outcome): Option<int> {
    match outcome
    case OfAccount(Delayed(seconds)) => Some(seconds)
    case OfChallenge(ChallengeDelayed(seconds)) => Some(seconds)
    case _ => None
  }

  predicate AttemptOn(op: Op, key: string) {
    (op.Claim? || op.Answer?) && op.key == key
  }

  lemma RefusalChangesNothing(s: Store, op: Op, key: string, t: int)
    requires Bounded(s, t) && Timed([op], t) && AttemptOn(op, key) && WaitNamed(Step(s, op).1).Some?
    ensures key in s.accounts && Step(s, op).0 == s
    ensures 1 <= WaitNamed(Step(s, op).1).value <= LONGEST_DELAY_SECONDS
    ensures s.accounts[key].delayedUntil <= op.now + 1000 * WaitNamed(Step(s, op).1).value
  {
    assert key in s.accounts;
    assert s.accounts[key := s.accounts[key]] == s.accounts;
  }

  /**
   Slowed, never locked out: in every state a run from an empty store reaches, a refused
   claim or answer names a wait of 1 to 60 seconds and changes nothing, and whatever else
   happens meanwhile (other refusals, other accounts, sweeps), once that wait is over neither
   a claim nor an answer is refused for coming too early: a claim is admitted, and an answer
   is unless its challenge has no answers left.
   */
  lemma SlowedNeverLockedOut(ops: seq<Op>, t: int, key: string, refused: Op, later: seq<Op>, retry: Op)
    requires Timed(ops, t) && AttemptOn(refused, key) && AttemptOn(retry, key)
    requires var s := After(Store(map[], map[]), ops);
             && Timed([refused], EndOfRun(ops, t)) && WaitNamed(Step(s, refused).1).Some?
             && Timed(later, refused.now) && Timed([retry], EndOfRun(later, refused.now))
             && retry.now >= refused.now + 1000 * WaitNamed(Step(s, refused).1).value
             && AdmittedTimes(s, later, key) == []
    ensures var s := After(Store(map[], map[]), ops);
            var again := Step(After(s, later), retry).1;
            && Step(s, refused).0 == s
            && 1 <= WaitNamed(Step(s, refused).1).value <= LONGEST_DELAY_SECONDS
            && (retry.Claim? ==> again.admission.Admitted?)
            && (retry.Answer? ==>
                  if Used(After(s, later), retry.jti) >= ATTEMPTS_PER_CHALLENGE then again.answer.Exhausted?
                  else again.answer.ChallengeAdmitted?)
  {
    var s := After(Store(map[], map[]), ops);
    BoundedRun(Store(map[], map[]), ops, t);
    RefusalChangesNothing(s, refused, key, EndOfRun(ops, t));
    RefusalsNeverExtend(s, later, key, refused.now, retry.now);
  }

  // ----- what clearing and sweeping mean for later attempts -----

  /**
   From one attempt to the next, in numbers: after the n-th of an account, one at any later instant
   is refused until the schedule's delay is over, then counts as the next, and from an hour after on
   as the first.
   */
  lemma NextAttempt(s: Store, key: string, lockedAt: int, now: int, locked: int, later: int)
    requires ClaimAccount(s, key, lockedAt, now).1.Admitted? && now <= later
    ensures var first := ClaimAccount(s, key, lockedAt, now);
            var n, second := first.1.attempts, ClaimAccount(first.0, key, locked, later).1;
            && (second.Delayed? <==> later < now + WaitMs(n))
            && (second.Admitted? && second.attempts == n + 1 <== now + WaitMs(n) <= later < now + 3_600_000)
            && (second.Admitted? && second.attempts == 1 <== later >= now + 3_600_000)
  {
    var first := ClaimAccount(s, key, lockedAt, now);
    AdmissionExactly(Some(LockedRow(s, key, lockedAt)), now);
    AdmissionExactly(Some(first.0.accounts[key]), later);
  }

  /** A cleared account starts afresh; every other account is decided on as before. */
  lemma ClearedStartsAfresh(s: Store, key: string, other: string, lockedAt: int, now: int)
    requires lockedAt <= now
    ensures ClaimAccount(ClearAccount(s, key), key, lockedAt, now).1 == Admitted(1, now)
    ensures other != key ==>
              ClaimAccount(ClearAccount(s, key), other, lockedAt, now).1 == ClaimAccount(s, other, lockedAt, now).1
    ensures ClearAccount(s, key).challenges == s.challenges
  {
    DelaySchedule(1);
  }

  /** A sweep changes no later decision on any account, and no answer to a challenge that was unexpired. */
  lemma SweptDecidesAlike(s: Store, swept: int, op: Op)
    requires (op.Claim? || op.Answer?) && swept <= op.lockedAt <= op.now
    requires op.Answer? && op.jti in s.challenges ==> swept <= s.challenges[op.jti].expiresAt
    ensures Step(SweepStore(s, swept), op).1 == Step(s, op).1
  {
    var row := LockedRow(s, op.key, op.lockedAt);
    if op.key in s.accounts && Sweepable(row, swept) {
      BlankAdmits(Some(row), swept, op.now);
      BlankAdmits(Some(LockedRow(SweepStore(s, swept), op.key, op.lockedAt)), op.lockedAt, op.now);
    }
  }
}

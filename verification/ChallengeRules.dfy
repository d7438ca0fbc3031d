/** What holds of two-factor challenges over every interleaving, and exactly when. */
module ChallengeRules {
  import opened Common
  import opened Challenges
  import AttemptPolicy
  import AttemptStore

  /** The answers a challenge admits. */
  const LIMIT := 5

  type Counts = map<Jti, AttemptStore.ChallengeRow>

  // ----- the invariant -----

  /** The stored count never exceeds the answers admitted, and equals it until the challenge expires. */
  ghost predicate AnswersInv(signed: Signed, counts: Counts, admitted: multiset<Jti>, clock: int) {
    && (forall j :: j in counts ==> j in signed && counts[j].expiresAt == ExpiryOf(signed, j))
    && (forall j :: AttemptStore.UsedIn(counts, j) <= admitted[j])
    && (forall j :: admitted[j] > 0 ==> j in signed)
    && (forall j :: j in signed && clock <= ExpiryOf(signed, j) ==> AttemptStore.UsedIn(counts, j) == admitted[j])
  }

  /** A consumed challenge has its tombstone until it expires. */
  ghost predicate TombstonesInv(signed: Signed, tombstones: map<Jti, int>, consumed: multiset<Jti>, clock: int) {
    && (forall j :: j in tombstones ==> j in signed && tombstones[j] == ExpiryOf(signed, j))
    && (forall j :: consumed[j] > 0 ==> j in signed && (j in tombstones || ExpiryOf(signed, j) < clock))
  }

  /** The requests that consumed the challenge and have not ended. */
  function Winners(requests: map<int, Request>, jti: Jti): set<int> {
    set id | id in requests && requests[id].jti == jti && requests[id].stage in {Consumed, Advanced, Cleared}
  }

  /** Every session has its own consumption. */
  ghost predicate SessionsInv(requests: map<int, Request>, consumed: multiset<Jti>, sessions: multiset<Jti>) {
    forall j :: sessions[j] + |Winners(requests, j)| <= consumed[j]
  }

  /** No set of options was answered twice, and the open one not at all. */
  ghost predicate OptionsInv(open: map<Jti, Options>, issued: multiset<Jti>, answered: multiset<(Jti, nat)>) {
    && (forall k :: answered[k] <= 1)
    && (forall k :: answered[k] > 0 ==> 1 <= k.1 <= issued[k.0])
    && (forall j :: j in open && !open[j].used ==> answered[(j, issued[j])] == 0)
    && (forall j :: j in open ==> issued[j] > 0)
  }

  ghost predicate Inv(s: Sys) {
    && AnswersInv(s.signed, s.attempts.challenges, s.admitted, s.clock)
    && TombstonesInv(s.signed, s.tombstones, s.consumed, s.clock)
    && SessionsInv(s.requests, s.consumed, s.sessions)
    && OptionsInv(s.open, s.issued, s.answered)
  }

  // ----- what each component keeps -----

  lemma AdmissionKeepsAnswers(signed: Signed, counts: Counts, admitted: multiset<Jti>, clock: int, jti: Jti, counts': Counts)
    requires AnswersInv(signed, counts, admitted, clock) && jti in signed
    requires counts' == counts[jti := AttemptStore.ChallengeRow(AttemptStore.UsedIn(counts, jti) + 1, ExpiryOf(signed, jti))]
    ensures AnswersInv(signed, counts', admitted + multiset{jti}, clock)
  {
    forall j
      ensures AttemptStore.UsedIn(counts', j) <= (admitted + multiset{jti})[j]
    {
      assert AttemptStore.UsedIn(counts, j) <= admitted[j];
    }
    forall j | j in signed && clock <= ExpiryOf(signed, j)
      ensures AttemptStore.UsedIn(counts', j) == (admitted + multiset{jti})[j]
    {
      assert AttemptStore.UsedIn(counts, j) == admitted[j];
    }
  }

  lemma SweepKeepsAnswers(signed: Signed, counts: Counts, admitted: multiset<Jti>, clock: int)
    requires AnswersInv(signed, counts, admitted, clock)
    ensures AnswersInv(signed, AttemptStore.KeptChallenges(counts, clock), admitted, clock)
  {
    var counts' := AttemptStore.KeptChallenges(counts, clock);
    forall j
      ensures AttemptStore.UsedIn(counts', j) <= admitted[j]
    {
      assert AttemptStore.UsedIn(counts, j) <= admitted[j];
    }
  }

  lemma TimeKeepsAnswers(signed: Signed, counts: Counts, admitted: multiset<Jti>, clock: int, later: int)
    requires AnswersInv(signed, counts, admitted, clock) && clock <= later
    ensures AnswersInv(signed, counts, admitted, later)
  {
  }

  lemma SigningKeepsAnswers(signed: Signed, counts: Counts, admitted: multiset<Jti>, clock: int, jti: Jti, challenge: Challenge)
    requires AnswersInv(signed, counts, admitted, clock) && jti !in signed
    ensures AnswersInv(signed[jti := challenge], counts, admitted, clock)
  {
    assert jti !in counts && admitted[jti] == 0;
    forall j | j in signed[jti := challenge] && clock <= ExpiryOf(signed[jti := challenge], j)
      ensures AttemptStore.UsedIn(counts, j) == admitted[j]
    {
    }
  }

  lemma ConsumptionKeepsTombstones(signed: Signed, tombstones: map<Jti, int>, consumed: multiset<Jti>, clock: int, jti: Jti)
    requires TombstonesInv(signed, tombstones, consumed, clock) && jti in signed
    ensures TombstonesInv(signed, tombstones[jti := ExpiryOf(signed, jti)], consumed + multiset{jti}, clock)
  {
    forall j | (consumed + multiset{jti})[j] > 0 && j != jti
      ensures consumed[j] > 0
    {
    }
  }

  lemma SweepKeepsTombstones(signed: Signed, tombstones: map<Jti, int>, consumed: multiset<Jti>, clock: int)
    requires TombstonesInv(signed, tombstones, consumed, clock)
    ensures TombstonesInv(signed, map j | j in tombstones && !(tombstones[j] < clock) :: tombstones[j], consumed, clock)
  {
  }

  /** What moving a request does to the winners of each challenge. */
  lemma WinnersMove(requests: map<int, Request>, id: int, request: Request, j: Jti)
    requires id in requests ==> requests[id].jti == request.jti
    ensures var wins := request.jti == j && request.stage in {Consumed, Advanced, Cleared};
            Winners(requests[id := request], j) == Winners(requests, j) - {id} + if wins then {id} else {}
  {
  }

  lemma MoveKeepsSessions(requests: map<int, Request>, consumed: multiset<Jti>, sessions: multiset<Jti>, id: int, request: Request)
    requires SessionsInv(requests, consumed, sessions) && (id in requests ==> requests[id].jti == request.jti)
    requires request.stage in {Consumed, Advanced, Cleared} ==> id in Winners(requests, request.jti)
    ensures SessionsInv(requests[id := request], consumed, sessions)
  {
    forall j
      ensures sessions[j] + |Winners(requests[id := request], j)| <= consumed[j]
    {
      WinnersMove(requests, id, request, j);
      assert sessions[j] + |Winners(requests, j)| <= consumed[j];
      var after := Winners(requests[id := request], j);
      assert after <= Winners(requests, j);
      Smaller(after, Winners(requests, j));
    }
  }

  lemma {:induction false} Smaller(a: set<int>, b: set<int>)
    requires a <= b
    ensures |a| <= |b|
  {
    assert b == a + (b - a);
    assert |b| == |a| + |b - a|;
  }

  lemma ConsumptionKeepsSessions(requests: map<int, Request>, consumed: multiset<Jti>, sessions: multiset<Jti>, id: int)
    requires SessionsInv(requests, consumed, sessions) && id in requests
    ensures SessionsInv(requests[id := requests[id].(stage := Consumed)], consumed + multiset{requests[id].jti}, sessions)
  {
    var request := requests[id].(stage := Consumed);
    forall j
      ensures sessions[j] + |Winners(requests[id := request], j)| <= (consumed + multiset{request.jti})[j]
    {
      WinnersMove(requests, id, request, j);
      assert sessions[j] + |Winners(requests, j)| <= consumed[j];
      Smaller(Winners(requests, j) - {id}, Winners(requests, j));
    }
  }

  lemma StartKeepsSessions(requests: map<int, Request>, consumed: multiset<Jti>, sessions: multiset<Jti>, id: int)
    requires SessionsInv(requests, consumed, sessions) && id in requests && requests[id].stage == Cleared
    ensures SessionsInv(requests[id := requests[id].(stage := Over)], consumed, sessions + multiset{requests[id].jti})
  {
    var request := requests[id].(stage := Over);
    forall j
      ensures (sessions + multiset{request.jti})[j] + |Winners(requests[id := request], j)| <= consumed[j]
    {
      WinnersMove(requests, id, request, j);
      assert sessions[j] + |Winners(requests, j)| <= consumed[j];
      if j == request.jti {
        assert id in Winners(requests, j);
      } else {
        assert id !in Winners(requests, j);
      }
    }
  }

  lemma IssueKeepsOptions(open: map<Jti, Options>, issued: multiset<Jti>, answered: multiset<(Jti, nat)>, jti: Jti, options: Options)
    requires OptionsInv(open, issued, answered)
    ensures OptionsInv(open[jti := options], issued + multiset{jti}, answered)
  {
    var number := (issued + multiset{jti})[jti];
    assert number == issued[jti] + 1;
    assert answered[(jti, number)] == 0;
    forall k | answered[k] > 0
      ensures 1 <= k.1 <= (issued + multiset{jti})[k.0]
    {
    }
    forall j | j in open && j != jti
      ensures (issued + multiset{jti})[j] == issued[j]
    {
    }
  }

  lemma SpendKeepsOptions(open: map<Jti, Options>, issued: multiset<Jti>, answered: multiset<(Jti, nat)>, jti: Jti)
    requires OptionsInv(open, issued, answered) && jti in open && !open[jti].used
    ensures OptionsInv(open[jti := open[jti].(used := true)], issued, answered + multiset{(jti, issued[jti])})
  {
    var k := (jti, issued[jti]);
    forall other
      ensures (answered + multiset{k})[other] == answered[other] + if other == k then 1 else 0
    {
    }
  }

  lemma SweepKeepsOptions(open: map<Jti, Options>, issued: multiset<Jti>, answered: multiset<(Jti, nat)>, clock: int)
    requires OptionsInv(open, issued, answered)
    ensures OptionsInv(ForgetOptions(open, clock), issued, answered)
  {
  }

  // ----- every step keeps the invariant -----

  lemma MovedKeepsInv(s: Sys, id: int, stage: Stage)
    requires Inv(s) && id in s.requests
    requires stage in {Consumed, Advanced, Cleared} ==> s.requests[id].stage in {Consumed, Advanced, Cleared}
    ensures Inv(Moved(s, id, stage))
  {
    MoveKeepsSessions(s.requests, s.consumed, s.sessions, id, s.requests[id].(stage := stage));
  }

  lemma IssueKeepsInv(s: Sys, id: int, nonce: string)
    requires Inv(s) && At(s, id, Opened)
    ensures Inv(DoIssue(s, id, nonce))
  {
    var jti := s.requests[id].jti;
    var user := s.signed[jti].user;
    MovedKeepsInv(s, id, Over);
    if MayIssue(s.open, jti, user) {
      IssueKeepsOptions(s.open, s.issued, s.answered, jti, IssueSignIn(s.open, jti, user, nonce, s.clock)[jti]);
    }
  }

  /** The account's back-off lets the answer through. */
  predicate BackOffAdmits(s: Sys, id: int, lockedAt: int)
    requires At(s, id, Opened)
  {
    var account := s.signed[s.requests[id].jti].account;
    AttemptPolicy.AdmitAttempt(Some(AttemptStore.LockedRow(s.attempts, account, lockedAt)), s.clock).Admitted?
  }

  /** What a claim does to the counts: one more for the challenge if it was below the limit and not delayed. */
  lemma ClaimCounts(s: Sys, id: int, lockedAt: int)
    requires At(s, id, Opened)
    ensures var claim, jti := Claim(s, id, lockedAt), s.requests[id].jti;
            && (claim.1.ChallengeAdmitted? <==> AttemptStore.Used(s.attempts, jti) < LIMIT && BackOffAdmits(s, id, lockedAt))
            && claim.0.challenges ==
               (if claim.1.ChallengeAdmitted? then
                  s.attempts.challenges[jti := AttemptStore.ChallengeRow(AttemptStore.Used(s.attempts, jti) + 1,
                    if jti in s.attempts.challenges then s.attempts.challenges[jti].expiresAt else ExpiryOf(s.signed, jti))]
                else
                  s.attempts.challenges)
  {
  }

  lemma AdmittedKeepsInv(s: Sys, id: int, attempts: AttemptStore.Store)
    requires Inv(s) && At(s, id, Opened)
    requires var jti := s.requests[id].jti;
             attempts.challenges == s.attempts.challenges[
               jti := AttemptStore.ChallengeRow(AttemptStore.Used(s.attempts, jti) + 1, ExpiryOf(s.signed, jti))]
    ensures Inv(Moved(s, id, Admitted).(attempts := attempts, admitted := s.admitted + multiset{s.requests[id].jti}))
  {
    MovedKeepsInv(s, id, Admitted);
    AdmissionKeepsAnswers(s.signed, s.attempts.challenges, s.admitted, s.clock, s.requests[id].jti, attempts.challenges);
  }

  lemma AdmitKeepsInv(s: Sys, id: int, lockedAt: int)
    requires Inv(s) && At(s, id, Opened)
    ensures Inv(DoAdmit(s, id, lockedAt))
  {
    var claim := Claim(s, id, lockedAt);
    ClaimCounts(s, id, lockedAt);
    if claim.1.ChallengeAdmitted? {
      AdmittedKeepsInv(s, id, claim.0);
    } else {
      MovedKeepsInv(s, id, Over);
      AccountsKeepInv(Moved(s, id, Over), claim.0);
    }
  }

  lemma SpendKeepsInv(s: Sys, id: int)
    requires Inv(s) && At(s, id, Admitted)
    ensures Inv(DoSpend(s, id))
  {
    var jti := s.requests[id].jti;
    if SpendSignIn(s.open, jti, s.signed[jti].user, s.clock).1.Some? {
      MovedKeepsInv(s, id, Spent);
      SpendKeepsOptions(s.open, s.issued, s.answered, jti);
    } else {
      MovedKeepsInv(s, id, Over);
    }
  }

  lemma ConsumeKeepsInv(s: Sys, id: int)
    requires Inv(s) && At(s, id, Checked)
    ensures Inv(DoConsume(s, id))
  {
    var jti := s.requests[id].jti;
    if jti in s.tombstones {
      MovedKeepsInv(s, id, Over);
    } else {
      ConsumptionKeepsSessions(s.requests, s.consumed, s.sessions, id);
      ConsumptionKeepsTombstones(s.signed, s.tombstones, s.consumed, s.clock, jti);
    }
  }

  lemma StartKeepsInv(s: Sys, id: int)
    requires Inv(s) && At(s, id, Cleared)
    ensures Inv(DoStart(s, id))
  {
    StartKeepsSessions(s.requests, s.consumed, s.sessions, id);
  }

  lemma IssueStepKeepsInv(s: Sys, id: int, nonce: string)
    requires Inv(s)
    ensures Inv(RequestStep(s, Issue(id, nonce)))
  {
    if At(s, id, Opened) {
      IssueKeepsInv(s, id, nonce);
    }
  }

  lemma AdmitStepKeepsInv(s: Sys, id: int, lockedAt: int)
    requires Inv(s)
    ensures Inv(RequestStep(s, Admit(id, lockedAt)))
  {
    if At(s, id, Opened) {
      AdmitKeepsInv(s, id, lockedAt);
    }
  }

  lemma SpendStepKeepsInv(s: Sys, id: int)
    requires Inv(s)
    ensures Inv(RequestStep(s, Spend(id)))
  {
    if At(s, id, Admitted) {
      SpendKeepsInv(s, id);
    }
  }

  lemma CheckStepKeepsInv(s: Sys, id: int, right: bool)
    requires Inv(s)
    ensures Inv(RequestStep(s, Check(id, right)))
  {
    if At(s, id, BeforeCheck(s, id)) {
      MovedKeepsInv(s, id, if right then Checked else Over);
    }
  }

  lemma AnsweringStepKeepsInv(s: Sys, step: Step)
    requires Inv(s) && (step.Issue? || step.Admit? || step.Spend? || step.Check?)
    ensures Inv(RequestStep(s, step))
  {
    match step
    case Issue(id, nonce) => IssueStepKeepsInv(s, id, nonce);
    case Admit(id, lockedAt) => AdmitStepKeepsInv(s, id, lockedAt);
    case Spend(id) => SpendStepKeepsInv(s, id);
    case Check(id, right) => CheckStepKeepsInv(s, id, right);
  }

  lemma ConsumeStepKeepsInv(s: Sys, id: int)
    requires Inv(s)
    ensures Inv(RequestStep(s, Consume(id)))
  {
    if At(s, id, Checked) {
      ConsumeKeepsInv(s, id);
    }
  }

  lemma AdvanceStepKeepsInv(s: Sys, id: int, advanced: bool)
    requires Inv(s)
    ensures Inv(RequestStep(s, Advance(id, advanced)))
  {
    if At(s, id, Consumed) {
      MovedKeepsInv(s, id, if advanced then Advanced else Over);
    }
  }

  lemma ClearStepKeepsInv(s: Sys, id: int)
    requires Inv(s)
    ensures Inv(RequestStep(s, Clear(id)))
  {
    if At(s, id, Advanced) {
      var moved := Moved(s, id, Cleared);
      MovedKeepsInv(s, id, Cleared);
      AccountsKeepInv(moved, AttemptStore.ClearAccount(s.attempts, s.signed[s.requests[id].jti].account));
    }
  }

  lemma StartStepKeepsInv(s: Sys, id: int)
    requires Inv(s)
    ensures Inv(RequestStep(s, Start(id)))
  {
    if At(s, id, Cleared) {
      StartKeepsInv(s, id);
    }
  }

  lemma WinningStepKeepsInv(s: Sys, step: Step)
    requires Inv(s) && (step.Consume? || step.Advance? || step.Clear? || step.Start?)
    ensures Inv(RequestStep(s, step))
  {
    match step
    case Consume(id) => ConsumeStepKeepsInv(s, id);
    case Advance(id, advanced) => AdvanceStepKeepsInv(s, id, advanced);
    case Clear(id) => ClearStepKeepsInv(s, id);
    case Start(id) => StartStepKeepsInv(s, id);
  }

  lemma TickKeepsInv(s: Sys, now: int)
    requires Inv(s) && s.clock <= now
    ensures Inv(s.(clock := now))
  {
    TimeKeepsAnswers(s.signed, s.attempts.challenges, s.admitted, s.clock, now);
  }

  lemma SignKeepsInv(s: Sys, jti: Jti, challenge: Challenge)
    requires Inv(s) && jti !in s.signed
    ensures Inv(s.(signed := s.signed[jti := challenge]))
  {
    SigningKeepsAnswers(s.signed, s.attempts.challenges, s.admitted, s.clock, jti, challenge);
  }

  /** Account rows come and go without touching the counts. */
  lemma AccountsKeepInv(s: Sys, attempts: AttemptStore.Store)
    requires Inv(s) && attempts.challenges == s.attempts.challenges
    ensures Inv(s.(attempts := attempts))
  {
  }

  lemma OpenKeepsInv(s: Sys, id: int, request: Request)
    requires Inv(s) && id !in s.requests && request.stage == Opened
    ensures Inv(s.(requests := s.requests[id := request]))
  {
    MoveKeepsSessions(s.requests, s.consumed, s.sessions, id, request);
  }

  lemma SweepAnswersKeepsInv(s: Sys)
    requires Inv(s)
    ensures Inv(OutsideStep(s, SweepAnswers))
  {
    SweepKeepsAnswers(s.signed, s.attempts.challenges, s.admitted, s.clock);
  }

  lemma SweepTombstonesKeepsInv(s: Sys)
    requires Inv(s)
    ensures Inv(OutsideStep(s, SweepTombstones))
  {
    SweepKeepsTombstones(s.signed, s.tombstones, s.consumed, s.clock);
  }

  lemma SweepOptionsKeepsInv(s: Sys)
    requires Inv(s)
    ensures Inv(OutsideStep(s, SweepOptions))
  {
    SweepKeepsOptions(s.open, s.issued, s.answered, s.clock);
  }

  lemma OtherAttemptKeepsInv(s: Sys, account: string, lockedAt: int)
    requires Inv(s)
    ensures Inv(OutsideStep(s, OtherAttempt(account, lockedAt)))
  {
    AccountsKeepInv(s, AttemptStore.ClaimAccount(s.attempts, account, lockedAt, s.clock).0);
  }

  lemma OtherClearKeepsInv(s: Sys, account: string)
    requires Inv(s)
    ensures Inv(OutsideStep(s, OtherClear(account)))
  {
    AccountsKeepInv(s, AttemptStore.ClearAccount(s.attempts, account));
  }

  lemma SweepAccountsKeepsInv(s: Sys)
    requires Inv(s)
    ensures Inv(OutsideStep(s, SweepAccounts))
  {
    AccountsKeepInv(s, s.attempts.(accounts := AttemptStore.KeptAccounts(s.attempts.accounts, s.clock)));
  }

  lemma AccountStepKeepsInv(s: Sys, step: Step)
    requires Inv(s) && (step.OtherAttempt? || step.OtherClear? || step.SweepAccounts?)
    ensures Inv(OutsideStep(s, step))
  {
    match step
    case OtherAttempt(account, lockedAt) => OtherAttemptKeepsInv(s, account, lockedAt);
    case OtherClear(account) => OtherClearKeepsInv(s, account);
    case SweepAccounts => SweepAccountsKeepsInv(s);
  }

  lemma SweepStepKeepsInv(s: Sys, step: Step)
    requires Inv(s) && (step.SweepAnswers? || step.SweepTombstones? || step.SweepOptions?)
    ensures Inv(OutsideStep(s, step))
  {
    if step.SweepAnswers? {
      SweepAnswersKeepsInv(s);
    } else if step.SweepTombstones? {
      SweepTombstonesKeepsInv(s);
    } else {
      SweepOptionsKeepsInv(s);
    }
  }

  lemma OutsideStepKeepsInv(s: Sys, step: Step)
    requires Inv(s)
    ensures Inv(OutsideStep(s, step))
  {
    if step.OtherAttempt? || step.OtherClear? || step.SweepAccounts? {
      AccountStepKeepsInv(s, step);
    } else if step.SweepAnswers? || step.SweepTombstones? || step.SweepOptions? {
      SweepStepKeepsInv(s, step);
    } else if step.Tick? && s.clock <= step.now {
      TickKeepsInv(s, step.now);
    } else if step.Sign? && step.jti !in s.signed {
      SignKeepsInv(s, step.jti, step.challenge);
    } else if step.Open? && MayOpen(s, step.id, step.jti) {
      OpenKeepsInv(s, step.id, Request(step.jti, step.kind, Opened));
    }
  }

  lemma NextKeepsInv(s: Sys, step: Step)
    requires Inv(s)
    ensures Inv(Next(s, step))
  {
    if step.Issue? || step.Admit? || step.Spend? || step.Check? {
      AnsweringStepKeepsInv(s, step);
    } else if IsRequestStep(step) {
      WinningStepKeepsInv(s, step);
    } else {
      OutsideStepKeepsInv(s, step);
    }
  }

  lemma {:induction false} RunKeepsInv(s: Sys, steps: seq<Step>)
    requires Inv(s)
    ensures Inv(Run(s, steps))
    decreases |steps|
  {
    if steps != [] {
      NextKeepsInv(s, steps[0]);
      RunKeepsInv(Next(s, steps[0]), steps[1..]);
    }
  }

  // ----- one consumption, exactly -----

  ghost predicate AtMost(record: multiset<Jti>, n: nat) {
    forall j :: record[j] <= n
  }

  /** The step consumes a challenge that was consumed before and has lost its tombstone. */
  predicate Reopens(s: Sys, step: Step) {
    && step.Consume? && At(s, step.id, Checked)
    && s.consumed[s.requests[step.id].jti] > 0
    && s.requests[step.id].jti !in s.tombstones
  }

  predicate NeverReopens(s: Sys, steps: seq<Step>)
    decreases |steps|
  {
    steps == [] || (!Reopens(s, steps[0]) && NeverReopens(Next(s, steps[0]), steps[1..]))
  }

  lemma OthersConsumeNothing(s: Sys, step: Step)
    requires !(step.Consume? && At(s, step.id, Checked))
    ensures Next(s, step).consumed == s.consumed
  {
  }

  lemma ConsumptionRecords(s: Sys, id: int)
    requires At(s, id, Checked)
    ensures s.consumed <= DoConsume(s, id).consumed
    ensures Reopens(s, Consume(id)) ==> DoConsume(s, id).consumed[s.requests[id].jti] >= 2
    ensures !Reopens(s, Consume(id)) && AtMost(s.consumed, 1) ==> AtMost(DoConsume(s, id).consumed, 1)
  {
    var jti := s.requests[id].jti;
    forall j
      ensures (s.consumed + multiset{jti})[j] == s.consumed[j] + if j == jti then 1 else 0
    {
    }
  }

  /** Each step consumes at most one challenge, and a second time only by reopening it. */
  lemma StepConsumes(s: Sys, step: Step)
    ensures s.consumed <= Next(s, step).consumed
    ensures Reopens(s, step) ==> Next(s, step).consumed[s.requests[step.id].jti] >= 2
    ensures !Reopens(s, step) && AtMost(s.consumed, 1) ==> AtMost(Next(s, step).consumed, 1)
  {
    if step.Consume? && At(s, step.id, Checked) {
      ConsumptionRecords(s, step.id);
    } else {
      OthersConsumeNothing(s, step);
    }
  }

  lemma AdmittedGrows(s: Sys, step: Step)
    ensures s.admitted <= Next(s, step).admitted
  {
  }

  lemma {:induction false} RecordsGrow(s: Sys, steps: seq<Step>)
    ensures s.consumed <= Run(s, steps).consumed && s.admitted <= Run(s, steps).admitted
    decreases |steps|
  {
    if steps != [] {
      StepConsumes(s, steps[0]);
      AdmittedGrows(s, steps[0]);
      RecordsGrow(Next(s, steps[0]), steps[1..]);
    }
  }

  lemma {:induction false} ConsumedOnceFrom(s: Sys, steps: seq<Step>)
    requires AtMost(s.consumed, 1)
    ensures AtMost(Run(s, steps).consumed, 1) <==> NeverReopens(s, steps)
    decreases |steps|
  {
    if steps != [] {
      var s' := Next(s, steps[0]);
      StepConsumes(s, steps[0]);
      if Reopens(s, steps[0]) {
        RecordsGrow(s', steps[1..]);
        assert Run(s, steps).consumed[s.requests[steps[0].id].jti] >= 2;
      } else {
        ConsumedOnceFrom(s', steps[1..]);
      }
    }
  }

  /**
   One winner, exactly: over every interleaving, each challenge is consumed at most once if and
   only if no request reaches the consuming statement of a challenge that was consumed before
   and whose tombstone is gone.
   */
  lemma ConsumedOnceExactly(start: Sys, steps: seq<Step>)
    requires Initial(start)
    ensures AtMost(Run(start, steps).consumed, 1) <==> NeverReopens(start, steps)
  {
    ConsumedOnceFrom(start, steps);
  }

  /** Over every interleaving, a challenge starts no more sessions than it was consumed. */
  lemma SessionsWithinConsumptions(start: Sys, steps: seq<Step>, jti: Jti)
    requires Initial(start)
    ensures Run(start, steps).sessions[jti] <= Run(start, steps).consumed[jti]
  {
    assert forall j :: Winners(start.requests, j) == {};
    RunKeepsInv(start, steps);
    assert SessionsInv(Run(start, steps).requests, Run(start, steps).consumed, Run(start, steps).sessions);
  }

  /** A step that reopens a challenge comes after its expiry. */
  lemma ReopeningIsLate(s: Sys, step: Step)
    requires Inv(s) && Reopens(s, step)
    ensures s.clock > ExpiryOf(s.signed, s.requests[step.id].jti)
  {
  }

  /** After expiry a sweep is all it takes: then any request found right reopens a consumed challenge. */
  lemma SweepReopens(s: Sys, id: int)
    requires Inv(s) && At(s, id, Checked) && s.consumed[s.requests[id].jti] > 0
    requires s.clock > ExpiryOf(s.signed, s.requests[id].jti)
    ensures Reopens(Next(s, SweepTombstones), Consume(id))
  {
  }

  // ----- five answers, exactly -----

  /** The step admits an answer to a challenge that has had its five, because its row says otherwise. */
  predicate Recounts(s: Sys, step: Step) {
    && step.Admit? && MayAdmit(s, step.id, step.lockedAt)
    && AttemptStore.Used(s.attempts, s.requests[step.id].jti) < LIMIT <= s.admitted[s.requests[step.id].jti]
    && BackOffAdmits(s, step.id, step.lockedAt)
  }

  predicate NeverRecounts(s: Sys, steps: seq<Step>)
    decreases |steps|
  {
    steps == [] || (!Recounts(s, steps[0]) && NeverRecounts(Next(s, steps[0]), steps[1..]))
  }

  lemma AdmissionRecords(s: Sys, id: int, lockedAt: int)
    requires Inv(s) && MayAdmit(s, id, lockedAt)
    ensures var jti, after := s.requests[id].jti, DoAdmit(s, id, lockedAt).admitted;
            && (Recounts(s, Admit(id, lockedAt)) ==> after[jti] > LIMIT)
            && (!Recounts(s, Admit(id, lockedAt)) ==> after[jti] > LIMIT ==> s.admitted[jti] > LIMIT)
            && forall j :: j != jti ==> after[j] == s.admitted[j]
  {
    ClaimCounts(s, id, lockedAt);
    assert AttemptStore.Used(s.attempts, s.requests[id].jti) <= s.admitted[s.requests[id].jti];
  }

  lemma OthersAdmitNothing(s: Sys, step: Step)
    requires !step.Admit?
    ensures Next(s, step).admitted == s.admitted
  {
  }

  lemma StepAdmits(s: Sys, step: Step)
    requires Inv(s)
    ensures Recounts(s, step) ==> Next(s, step).admitted[s.requests[step.id].jti] > LIMIT
    ensures !Recounts(s, step) && AtMost(s.admitted, LIMIT) ==> AtMost(Next(s, step).admitted, LIMIT)
  {
    if step.Admit? {
      if MayAdmit(s, step.id, step.lockedAt) {
        AdmissionRecords(s, step.id, step.lockedAt);
      }
    } else {
      OthersAdmitNothing(s, step);
    }
  }

  lemma {:induction false} FiveAnswersFrom(s: Sys, steps: seq<Step>)
    requires Inv(s) && AtMost(s.admitted, LIMIT)
    ensures AtMost(Run(s, steps).admitted, LIMIT) <==> NeverRecounts(s, steps)
    decreases |steps|
  {
    if steps != [] {
      var s' := Next(s, steps[0]);
      StepAdmits(s, steps[0]);
      NextKeepsInv(s, steps[0]);
      if Recounts(s, steps[0]) {
        RecordsGrow(s', steps[1..]);
        assert Run(s, steps).admitted[s.requests[steps[0].id].jti] > LIMIT;
      } else {
        FiveAnswersFrom(s', steps[1..]);
      }
    }
  }

  lemma InitialInv(s: Sys)
    requires Initial(s)
    ensures Inv(s)
  {
    assert forall j :: Winners(s.requests, j) == {};
  }

  /**
   Five answers, exactly: over every interleaving, each challenge admits at most five answers if
   and only if no answer the back-off lets through meets a challenge that has had its five and
   whose row has been swept.
   */
  lemma FiveAnswersExactly(start: Sys, steps: seq<Step>)
    requires Initial(start)
    ensures AtMost(Run(start, steps).admitted, LIMIT) <==> NeverRecounts(start, steps)
  {
    InitialInv(start);
    FiveAnswersFrom(start, steps);
  }

  lemma RecountingIsLate(s: Sys, step: Step)
    requires Inv(s) && Recounts(s, step)
    ensures s.clock > ExpiryOf(s.signed, s.requests[step.id].jti)
  {
  }

  /** After expiry a sweep is all it takes for a sixth answer the back-off lets through. */
  lemma SweepRecounts(s: Sys, id: int, lockedAt: int)
    requires Inv(s) && MayAdmit(s, id, lockedAt) && BackOffAdmits(s, id, lockedAt)
    requires s.admitted[s.requests[id].jti] >= LIMIT && s.clock > ExpiryOf(s.signed, s.requests[id].jti)
    ensures Recounts(Next(s, SweepAnswers), Admit(id, lockedAt))
  {
  }

  // ----- requests that keep to their challenge's time -----

  /** The step claims or consumes, if it does, no later than its challenge's expiry. */
  predicate InTime(s: Sys, step: Step) {
    (step.Admit? && At(s, step.id, Opened)) || (step.Consume? && At(s, step.id, Checked)) ==>
      s.clock <= ExpiryOf(s.signed, s.requests[step.id].jti)
  }

  predicate Punctual(s: Sys, steps: seq<Step>)
    decreases |steps|
  {
    steps == [] || (InTime(s, steps[0]) && Punctual(Next(s, steps[0]), steps[1..]))
  }

  lemma InTimeIsClean(s: Sys, step: Step)
    requires Inv(s) && InTime(s, step)
    ensures !Reopens(s, step) && !Recounts(s, step)
  {
  }

  lemma {:induction false} PunctualIsClean(s: Sys, steps: seq<Step>)
    requires Inv(s) && Punctual(s, steps)
    ensures NeverReopens(s, steps) && NeverRecounts(s, steps)
    decreases |steps|
  {
    if steps != [] {
      InTimeIsClean(s, steps[0]);
      NextKeepsInv(s, steps[0]);
      PunctualIsClean(Next(s, steps[0]), steps[1..]);
    }
  }

  /**
   One challenge, one session, five answers: when no request claims or consumes after its
   challenge's expiry, however code and passkey answers interleave with one another, with
   options, sweeps and time, a challenge admits at most five answers and starts at most one
   session.
   */
  lemma OneChallengeOneSession(start: Sys, steps: seq<Step>, jti: Jti)
    requires Initial(start) && Punctual(start, steps)
    ensures Run(start, steps).admitted[jti] <= LIMIT && Run(start, steps).sessions[jti] <= 1
  {
    InitialInv(start);
    PunctualIsClean(start, steps);
    ConsumedOnceExactly(start, steps);
    FiveAnswersExactly(start, steps);
    SessionsWithinConsumptions(start, steps, jti);
  }

  /** Over every interleaving, punctual or not, no set of passkey options is answered twice. */
  lemma OptionsAnsweredOnce(start: Sys, steps: seq<Step>, jti: Jti, number: nat)
    requires Initial(start)
    ensures var s := Run(start, steps);
            && s.answered[(jti, number)] <= 1
            && (s.answered[(jti, number)] == 1 ==> 1 <= number <= s.issued[jti])
  {
    InitialInv(start);
    RunKeepsInv(start, steps);
  }

  // ----- late requests: a second session -----

  /** The rest of a request whose answer was found right. */
  function Finishing(id: int): seq<Step> {
    [Consume(id), Advance(id, true), Clear(id), Start(id)]
  }

  lemma {:induction false} RunConcat(s: Sys, first: seq<Step>, second: seq<Step>)
    ensures Run(s, first + second) == Run(Run(s, first), second)
    decreases |first|
  {
    if first == [] {
      assert first + second == second;
    } else {
      assert (first + second)[1..] == first[1..] + second;
      RunConcat(Next(s, first[0]), first[1..], second);
    }
  }

  lemma RunOne(s: Sys, step: Step, rest: seq<Step>)
    ensures Run(s, [step] + rest) == Run(Next(s, step), rest)
  {
    assert ([step] + rest)[1..] == rest;
  }

  lemma FinishingRuns(s: Sys, id: int)
    ensures Run(s, Finishing(id)) == Next(Next(Next(Next(s, Consume(id)), Advance(id, true)), Clear(id)), Start(id))
  {
    var a := Next(s, Consume(id));
    var b := Next(a, Advance(id, true));
    var c := Next(b, Clear(id));
    RunOne(s, Consume(id), [Advance(id, true), Clear(id), Start(id)]);
    RunOne(a, Advance(id, true), [Clear(id), Start(id)]);
    RunOne(b, Clear(id), [Start(id)]);
    RunOne(c, Start(id), []);
    assert [Start(id)] + [] == [Start(id)];
  }

  lemma WinsThenStarts(s: Sys, id: int)
    requires At(s, id, Consumed)
    ensures var t := Next(Next(Next(s, Advance(id, true)), Clear(id)), Start(id));
            && t.sessions == s.sessions + multiset{s.requests[id].jti} && t.consumed == s.consumed
            && t.requests == s.requests[id := s.requests[id].(stage := Over)]
            && t.tombstones == s.tombstones && t.signed == s.signed && t.clock == s.clock
  {
  }

  /** A request found right that meets no tombstone starts a session; a second one does, too. */
  lemma WinnerStarts(s: Sys, id: int)
    requires At(s, id, Checked) && s.requests[id].jti !in s.tombstones
    ensures var t, jti := Run(s, Finishing(id)), s.requests[id].jti;
            && t.sessions == s.sessions + multiset{jti} && t.consumed == s.consumed + multiset{jti}
            && t.requests == s.requests[id := s.requests[id].(stage := Over)]
            && t.tombstones == s.tombstones[jti := ExpiryOf(s.signed, jti)]
            && t.signed == s.signed && t.clock == s.clock
  {
    var c := DoConsume(s, id);
    assert Next(s, Consume(id)) == c;
    ConsumeMoves(s, id);
    WinsThenStarts(c, id);
    FinishingRuns(s, id);
  }

  lemma ConsumeMoves(s: Sys, id: int)
    requires At(s, id, Checked) && s.requests[id].jti !in s.tombstones
    ensures At(DoConsume(s, id), id, Consumed)
    ensures DoConsume(s, id).requests[id := s.requests[id].(stage := Over)] == s.requests[id := s.requests[id].(stage := Over)]
  {
  }

  /** One request in time, the other late, a sweep between them. */
  function OneLate(a: int, b: int, now: int): seq<Step> {
    Finishing(a) + ([Tick(now), SweepTombstones] + Finishing(b))
  }

  lemma SweepOpensTheWay(s: Sys, jti: Jti, now: int)
    requires s.clock <= now && jti in s.tombstones && s.tombstones[jti] < now
    ensures var t := Run(s, [Tick(now), SweepTombstones]);
            && jti !in t.tombstones && t.requests == s.requests && t.signed == s.signed
            && t.sessions == s.sessions && t.consumed == s.consumed
  {
    RunOne(s, Tick(now), [SweepTombstones]);
    RunOne(s.(clock := now), SweepTombstones, []);
    assert [SweepTombstones] + [] == [SweepTombstones];
    assert [Tick(now)] + [SweepTombstones] == [Tick(now), SweepTombstones];
  }

  /**
   One late request is enough: whenever two requests were found right on an unanswered
   challenge, the first finishes, the challenge expires, a sweep runs and the second
   finishes, both start a session.
   */
  lemma LateRequestStartsAnother(s: Sys, a: int, b: int, now: int)
    requires a != b && At(s, a, Checked) && At(s, b, Checked) && s.requests[a].jti == s.requests[b].jti
    requires s.requests[a].jti !in s.tombstones && s.clock <= now && ExpiryOf(s.signed, s.requests[a].jti) < now
    ensures var jti := s.requests[a].jti;
            Run(s, OneLate(a, b, now)).sessions[jti] == s.sessions[jti] + 2
  {
    var jti := s.requests[a].jti;
    WinnerStarts(s, a);
    var t := Run(s, Finishing(a));
    SweepOpensTheWay(t, jti, now);
    var u := Run(t, [Tick(now), SweepTombstones]);
    WinnerStarts(u, b);
    RunConcat(s, Finishing(a), [Tick(now), SweepTombstones] + Finishing(b));
    RunConcat(t, [Tick(now), SweepTombstones], Finishing(b));
  }

  // ----- such requests exist -----

  /** Requests 1 to `n` answer the challenge with codes; the first `k` of them are past admission. */
  ghost predicate Answering(s: Sys, jti: Jti, k: nat, n: nat) {
    && jti in s.signed && s.clock == 0 && jti !in s.tombstones && s.sessions[jti] == 0
    && (forall id :: 1 <= id <= n ==> id in s.requests)
    && (forall id :: 1 <= id <= k && id <= n ==> s.requests[id] == Request(jti, Code, Admitted))
    && (forall id :: k < id <= n ==> s.requests[id] == Request(jti, Code, Opened))
    && s.admitted[jti] == k && AttemptStore.Used(s.attempts, jti) == k
    && AttemptStore.LockedRow(s.attempts, s.signed[jti].account, 0)
    == AttemptPolicy.AttemptState(k, 0, 1000 * AttemptPolicy.DelaySecondsAfter(k))
  }

  lemma RunLast(s: Sys, steps: seq<Step>, step: Step)
    ensures Run(s, steps + [step]) == Next(Run(s, steps), step)
  {
    RunConcat(s, steps, [step]);
    RunOne(Run(s, steps), step, []);
    assert [step] + [] == [step];
  }

  ghost predicate UpTo(s: Sys, n: nat) {
    forall id :: id in s.requests ==> id <= n
  }

  lemma OpensOne(s: Sys, jti: Jti, n: nat)
    requires n > 0 && Answering(s, jti, 0, n - 1) && UpTo(s, n - 1) && s.signed[jti].exp > 0
    ensures var t := Next(s, Open(n, jti, Code));
            Answering(t, jti, 0, n) && UpTo(t, n) && t.signed == s.signed
  {
  }

  lemma OpensLast(s: Sys, steps: seq<Step>, before: Sys, jti: Jti, n: nat) returns (t: Sys)
    requires n > 0 && before == Run(s, steps)
    requires Answering(before, jti, 0, n - 1) && UpTo(before, n - 1) && before.signed[jti].exp > 0
    ensures t == Run(s, steps + [Open(n, jti, Code)])
    ensures Answering(t, jti, 0, n) && UpTo(t, n) && t.signed == before.signed
  {
    t := Next(before, Open(n, jti, Code));
    OpensOne(before, jti, n);
    RunLast(s, steps, Open(n, jti, Code));
  }

  /** Any number of requests open on a challenge. */
  lemma {:induction false} OpensMany(s: Sys, jti: Jti, n: nat) returns (steps: seq<Step>, t: Sys)
    requires Answering(s, jti, 0, 0) && s.requests == map[] && s.signed[jti].exp > 0
    ensures t == Run(s, steps) && Answering(t, jti, 0, n) && UpTo(t, n) && t.signed == s.signed
  {
    if n == 0 {
      steps, t := [], s;
    } else {
      var before;
      steps, before := OpensMany(s, jti, n - 1);
      t := OpensLast(s, steps, before, jti, n);
      steps := steps + [Open(n, jti, Code)];
    }
  }

  lemma ClaimsNext(s: Sys, jti: Jti, k: nat, n: nat)
    requires Answering(s, jti, k, n) && k < n && k < 5
    ensures At(s, k + 1, Opened) && MayAdmit(s, k + 1, 0)
    ensures var claim := Claim(s, k + 1, 0);
            && claim.1.ChallengeAdmitted? && AttemptStore.Used(claim.0, jti) == k + 1
            && AttemptStore.LockedRow(claim.0, s.signed[jti].account, 0)
            == AttemptPolicy.AttemptState(k + 1, 0, 1000 * AttemptPolicy.DelaySecondsAfter(k + 1))
  {
    AttemptPolicy.DelaySchedule(k);
    AttemptPolicy.DelaySchedule(k + 1);
  }

  lemma AdmitsOne(s: Sys, jti: Jti, k: nat, n: nat)
    requires Answering(s, jti, k, n) && k < n && k < 5
    ensures Answering(Next(s, Admit(k + 1, 0)), jti, k + 1, n) && Next(s, Admit(k + 1, 0)).signed == s.signed
  {
    ClaimsNext(s, jti, k, n);
    var t := DoAdmit(s, k + 1, 0);
    assert t == Moved(s, k + 1, Admitted).(attempts := Claim(s, k + 1, 0).0, admitted := s.admitted + multiset{jti});
    assert t.admitted[jti] == k + 1;
  }

  lemma AdmitsLast(s: Sys, steps: seq<Step>, before: Sys, jti: Jti, k: nat, n: nat) returns (t: Sys)
    requires 0 < k <= n && k <= 5 && before == Run(s, steps) && Answering(before, jti, k - 1, n)
    ensures t == Run(s, steps + [Admit(k, 0)]) && Answering(t, jti, k, n) && t.signed == before.signed
  {
    t := AdmitsNext(before, jti, k, n);
    RunLast(s, steps, Admit(k, 0));
  }

  lemma AdmitsNext(s: Sys, jti: Jti, k: nat, n: nat) returns (t: Sys)
    requires 0 < k <= n && k <= 5 && Answering(s, jti, k - 1, n)
    ensures t == Next(s, Admit(k, 0)) && Answering(t, jti, k, n) && t.signed == s.signed
  {
    t := Next(s, Admit(k, 0));
    AdmitsOne(s, jti, k - 1, n);
  }

  /** Up to five of them are admitted at once. */
  lemma {:induction false} AdmitsMany(s: Sys, jti: Jti, k: nat, n: nat) returns (steps: seq<Step>, t: Sys)
    requires Answering(s, jti, 0, n) && k <= n && k <= 5
    ensures t == Run(s, steps) && Answering(t, jti, k, n) && t.signed == s.signed
  {
    if k == 0 {
      steps, t := [], s;
    } else {
      var before;
      steps, before := AdmitsMany(s, jti, k - 1, n);
      t := AdmitsLast(s, steps, before, jti, k, n);
      steps := steps + [Admit(k, 0)];
    }
  }

  lemma Signs(s: Sys, jti: Jti, challenge: Challenge)
    requires Initial(s) && s.clock == 0 && s.attempts.accounts == map[]
    ensures Answering(Next(s, Sign(jti, challenge)), jti, 0, 0)
    ensures Next(s, Sign(jti, challenge)).signed == map[jti := challenge] && Next(s, Sign(jti, challenge)).requests == map[]
  {
    AttemptPolicy.DelaySchedule(0);
  }

  /** A challenge, `n` requests on it, and `k` of them admitted. */
  lemma Begins(s: Sys, jti: Jti, challenge: Challenge, k: nat, n: nat) returns (steps: seq<Step>, t: Sys)
    requires Initial(s) && s.clock == 0 && s.attempts.accounts == map[] && challenge.exp > 0 && k <= n && k <= 5
    ensures t == Run(s, steps) && Answering(t, jti, k, n) && t.signed == map[jti := challenge]
  {
    var a := Next(s, Sign(jti, challenge));
    Signs(s, jti, challenge);
    var opening, asked := OpensMany(a, jti, n);
    var admitting;
    admitting, t := AdmitsMany(asked, jti, k, n);
    RunOne(s, Sign(jti, challenge), opening + admitting);
    RunConcat(a, opening, admitting);
    steps := [Sign(jti, challenge)] + (opening + admitting);
  }

  lemma ChecksTwo(s: Sys, jti: Jti)
    requires Answering(s, jti, 2, 2)
    ensures var t := Run(s, [Check(1, true), Check(2, true)]);
            && t == Moved(Moved(s, 1, Checked), 2, Checked)
  {
    RunOne(s, Check(1, true), [Check(2, true)]);
    RunOne(Moved(s, 1, Checked), Check(2, true), []);
    assert [Check(2, true)] + [] == [Check(2, true)];
    assert [Check(1, true)] + [Check(2, true)] == [Check(1, true), Check(2, true)];
  }

  lemma CheckedThenTwo(s: Sys, jti: Jti, now: int)
    requires Answering(s, jti, 2, 2) && now > ExpiryOf(s.signed, jti) > 0
    ensures Run(s, [Check(1, true), Check(2, true)] + OneLate(1, 2, now)).sessions[jti] == 2
  {
    ChecksTwo(s, jti);
    RunConcat(s, [Check(1, true), Check(2, true)], OneLate(1, 2, now));
    LateRequestStartsAnother(Moved(Moved(s, 1, Checked), 2, Checked), 1, 2, now);
  }

  /** From an empty system, for every challenge: a run that starts two sessions on it. */
  lemma TwoSessionsAreReached(s: Sys, jti: Jti, challenge: Challenge, now: int) returns (steps: seq<Step>)
    requires Initial(s) && s.clock == 0 && s.attempts.accounts == map[] && challenge.exp > 0
    requires now > challenge.exp * 1000
    ensures Run(s, steps).sessions[jti] == 2
  {
    var begun, t := Begins(s, jti, challenge, 2, 2);
    var rest := [Check(1, true), Check(2, true)] + OneLate(1, 2, now);
    RunConcat(s, begun, rest);
    CheckedThenTwo(t, jti, now);
    steps := begun + rest;
  }

  lemma SixthAfterSweep(s: Sys, jti: Jti, now: int)
    requires Answering(s, jti, 5, 6) && now > ExpiryOf(s.signed, jti) >= 1000
    requires jti in s.attempts.challenges && s.attempts.challenges[jti].expiresAt < now
    ensures Run(s, [Tick(now), SweepAnswers, Admit(6, now)]).admitted[jti] == 6
  {
    AttemptPolicy.DelaySchedule(5);
    var a := s.(clock := now);
    var b := Next(a, SweepAnswers);
    ClaimCounts(b, 6, now);
    RunOne(s, Tick(now), [SweepAnswers, Admit(6, now)]);
    RunOne(a, SweepAnswers, [Admit(6, now)]);
    RunOne(b, Admit(6, now), []);
    assert [Admit(6, now)] + [] == [Admit(6, now)];
  }

  /** And one that admits six answers. */
  lemma SixAnswersAreReached(s: Sys, jti: Jti, challenge: Challenge, now: int) returns (steps: seq<Step>)
    requires Initial(s) && s.clock == 0 && s.attempts.accounts == map[] && challenge.exp > 0
    requires now > challenge.exp * 1000
    ensures Run(s, steps).admitted[jti] == 6
  {
    var begun, t := Begins(s, jti, challenge, 5, 6);
    var rest := [Tick(now), SweepAnswers, Admit(6, now)];
    InitialInv(s);
    RunKeepsInv(s, begun);
    RunConcat(s, begun, rest);
    SixthAfterSweep(t, jti, now);
    steps := begun + rest;
  }
}

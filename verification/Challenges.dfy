/**
 Answering a two-factor challenge, statement by statement. Any number of requests, by code or
 by passkey, on any challenges, run at once; each database statement or transaction is one
 step, and other requests, sweeps and the clock may come between any two.
 */
module Challenges {
  import opened Common
  import AttemptPolicy
  import AttemptStore

  type Jti = string

  // ----- passkey options -----

  const SIGN_IN_CHALLENGE_SECONDS := 120

  /** The WebAuthn options open for a challenge. */
  datatype Options = Options(user: int, challenge: string, expiresAt: int, used: bool)

  /** Options of another user are not replaced. */
  predicate MayIssue(open: map<Jti, Options>, jti: Jti, user: int) {
    jti !in open || open[jti].user == user
  }

  /** Insert the options of a challenge, or replace those of the same user. */
  function IssueSignIn(open: map<Jti, Options>, jti: Jti, user: int, challenge: string, now: int): map<Jti, Options> {
    if MayIssue(open, jti, user) then
      open[jti := Options(user, challenge, now + SIGN_IN_CHALLENGE_SECONDS * 1000, false)]
    else
      open
  }

  /** Spend the user's open options, if there are any: unused and unexpired. */
  function SpendSignIn(open: map<Jti, Options>, jti: Jti, user: int, now: int): (map<Jti, Options>, Option<string>) {
    if jti in open && open[jti].user == user && !open[jti].used && open[jti].expiresAt > now then
      (open[jti := open[jti].(used := true)], Some(open[jti].challenge))
    else
      (open, None)
  }

  function ForgetOptions(open: map<Jti, Options>, now: int): map<Jti, Options> {
    map j | j in open && !(open[j].expiresAt < now) :: open[j]
  }

  class PasskeyChallenges {
    var open: map<Jti, Options>

    constructor ()
      ensures open == map[]
    {
      open := map[];
    }

    method Issue(user: int, jti: Jti, challenge: string, now: int)
      modifies this
      ensures open == IssueSignIn(old(open), jti, user, challenge, now)
    {
      if jti !in open {
        open := open[jti := Options(user, challenge, now + SIGN_IN_CHALLENGE_SECONDS * 1000, false)];
      } else if open[jti].user == user {
        open := open[jti := open[jti].(challenge := challenge, expiresAt := now + SIGN_IN_CHALLENGE_SECONDS * 1000, used := false)];
      }
    }

    method Spend(jti: Jti, user: int, now: int) returns (challenge: Option<string>)
      modifies this
      ensures (open, challenge) == SpendSignIn(old(open), jti, user, now)
      ensures open.Keys == old(open).Keys
      ensures challenge.Some? ==> jti in open && open[jti].used && !old(open)[jti].used
      ensures forall j :: j in open && (j != jti || challenge.None?) ==> open[j] == old(open)[j]
    {
      challenge := None;
      if jti in open && open[jti].user == user && !open[jti].used && open[jti].expiresAt > now {
        challenge := Some(open[jti].challenge);
        open := open[jti := open[jti].(used := true)];
      }
    }

    method Sweep(now: int)
      modifies this
      ensures open == ForgetOptions(old(open), now)
      ensures forall j :: j in open <==> j in old(open) && now <= old(open)[j].expiresAt
      ensures forall j :: j in open ==> open[j] == old(open)[j]
    {
      open := map j | j in open && !(open[j].expiresAt < now) :: open[j];
    }
  }

  /** Spent options cannot be spent again, by anyone at any time, until options are issued anew. */
  lemma SpentOnce(open: map<Jti, Options>, jti: Jti, user: int, now: int, other: int, later: int)
    ensures var first := SpendSignIn(open, jti, user, now);
            first.1.Some? ==> SpendSignIn(first.0, jti, other, later).1.None?
  {
  }

  /** A sweep opens and closes nothing: from then on every spend ends as it would have. */
  lemma SweptOptionsWereClosed(open: map<Jti, Options>, swept: int, jti: Jti, user: int, now: int)
    requires swept <= now
    ensures SpendSignIn(ForgetOptions(open, swept), jti, user, now).1 == SpendSignIn(open, jti, user, now).1
  {
  }

  // ----- requests in flight -----

  /** An answer by code or by passkey, or a request for passkey options. */
  datatype Kind = Code | Passkey | Asking

  /** How far a request has come; the statements in between are its steps. */
  datatype Stage = Opened | Admitted | Spent | Checked | Consumed | Advanced | Cleared | Over

  datatype Request = Request(jti: Jti, kind: Kind, stage: Stage)

  datatype Challenge = Challenge(user: int, account: string, exp: int)

  type Signed = map<Jti, Challenge>

  /**
   The last five fields only record what happened: answers admitted, challenges consumed,
   sessions started, sets of options given, and each set answered, by challenge and number.
   */
  datatype Sys = Sys(
    clock: int,
    signed: Signed,
    attempts: AttemptStore.Store,
    tombstones: map<Jti, int>,
    open: map<Jti, Options>,
    requests: map<int, Request>,
    admitted: multiset<Jti>,
    consumed: multiset<Jti>,
    sessions: multiset<Jti>,
    issued: multiset<Jti>,
    answered: multiset<(Jti, nat)>)

  datatype Step =
    | Tick(now: int)
    | Sign(jti: Jti, challenge: Challenge)
    | Open(id: int, jti: Jti, kind: Kind)
    | Issue(id: int, nonce: string)
    | Admit(id: int, lockedAt: int)
    | Spend(id: int)
    | Check(id: int, right: bool)
    | Consume(id: int)
    | Advance(id: int, advanced: bool)
    | Clear(id: int)
    | Start(id: int)
    | OtherAttempt(account: string, lockedAt: int)
    | OtherClear(account: string)
    | SweepAccounts
    | SweepAnswers
    | SweepTombstones
    | SweepOptions

  function Moved(s: Sys, id: int, stage: Stage): Sys
    requires id in s.requests
  {
    s.(requests := s.requests[id := s.requests[id].(stage := stage)])
  }

  predicate At(s: Sys, id: int, stage: Stage) {
    id in s.requests && s.requests[id].stage == stage && s.requests[id].jti in s.signed
  }

  /** The challenge's expiry as a store keeps it. */
  function ExpiryOf(signed: Signed, jti: Jti): int
    requires jti in signed
  {
    signed[jti].exp * 1000
  }

  /** The signature holds, `exp` lies ahead, and no tombstone says the challenge was answered. */
  predicate MayOpen(s: Sys, id: int, jti: Jti) {
    id !in s.requests && jti in s.signed && s.clock / 1000 < s.signed[jti].exp && jti !in s.tombstones
  }

  function DoIssue(s: Sys, id: int, nonce: string): Sys
    requires At(s, id, Opened)
  {
    var jti := s.requests[id].jti;
    var user := s.signed[jti].user;
    Moved(s, id, Over).(
      open := IssueSignIn(s.open, jti, user, nonce, s.clock),
      issued := if MayIssue(s.open, jti, user) then s.issued + multiset{jti} else s.issued)
  }

  function Claim(s: Sys, id: int, lockedAt: int): (AttemptStore.Store, AttemptStore.ChallengeAdmission)
    requires At(s, id, Opened)
  {
    var jti := s.requests[id].jti;
    AttemptStore.ClaimChallenge(s.attempts, s.signed[jti].account, jti, ExpiryOf(s.signed, jti),
                                AttemptPolicy.ATTEMPTS_PER_CHALLENGE, lockedAt, s.clock)
  }

  function DoAdmit(s: Sys, id: int, lockedAt: int): Sys
    requires At(s, id, Opened)
  {
    var claim := Claim(s, id, lockedAt);
    if claim.1.ChallengeAdmitted? then
      Moved(s, id, Admitted).(attempts := claim.0, admitted := s.admitted + multiset{s.requests[id].jti})
    else
      Moved(s, id, Over).(attempts := claim.0)
  }

  function DoSpend(s: Sys, id: int): Sys
    requires At(s, id, Admitted)
  {
    var jti := s.requests[id].jti;
    var spent := SpendSignIn(s.open, jti, s.signed[jti].user, s.clock);
    if spent.1.Some? then
      Moved(s, id, Spent).(open := spent.0, answered := s.answered + multiset{(jti, s.issued[jti])})
    else
      Moved(s, id, Over)
  }

  /** The tombstone insert decides who answered the challenge. */
  function DoConsume(s: Sys, id: int): Sys
    requires At(s, id, Checked)
  {
    var jti := s.requests[id].jti;
    if jti in s.tombstones then
      Moved(s, id, Over)
    else
      Moved(s, id, Consumed).(
        tombstones := s.tombstones[jti := ExpiryOf(s.signed, jti)],
        consumed := s.consumed + multiset{jti})
  }

  function DoClear(s: Sys, id: int): Sys
    requires At(s, id, Advanced)
  {
    Moved(s, id, Cleared).(attempts := AttemptStore.ClearAccount(s.attempts, s.signed[s.requests[id].jti].account))
  }

  function DoStart(s: Sys, id: int): Sys
    requires At(s, id, Cleared)
  {
    Moved(s, id, Over).(sessions := s.sessions + multiset{s.requests[id].jti})
  }

  /** What a right answer must have passed before it is checked. */
  function BeforeCheck(s: Sys, id: int): Stage {
    if id in s.requests && s.requests[id].kind == Code then Admitted else Spent
  }

  /** A request's own step; one that is not enabled changes nothing. */
  function RequestStep(s: Sys, step: Step): Sys {
    match step
    case Issue(id, nonce) => if At(s, id, Opened) && s.requests[id].kind == Asking then DoIssue(s, id, nonce) else s
    case Admit(id, lockedAt) => if MayAdmit(s, id, lockedAt) then DoAdmit(s, id, lockedAt) else s
    case Spend(id) => if At(s, id, Admitted) && s.requests[id].kind == Passkey then DoSpend(s, id) else s
    case Check(id, right) => if At(s, id, BeforeCheck(s, id)) then Moved(s, id, if right then Checked else Over) else s
    case Consume(id) => if At(s, id, Checked) then DoConsume(s, id) else s
    case Advance(id, advanced) => if At(s, id, Consumed) then Moved(s, id, if advanced then Advanced else Over) else s
    case Clear(id) => if At(s, id, Advanced) then DoClear(s, id) else s
    case Start(id) => if At(s, id, Cleared) then DoStart(s, id) else s
    case _ => s
  }

  predicate MayAdmit(s: Sys, id: int, lockedAt: int) {
    At(s, id, Opened) && s.requests[id].kind != Asking && lockedAt <= s.clock
  }

  /** The clock, new challenges and requests, attempts elsewhere and the four deletes of a sweep. */
  function OutsideStep(s: Sys, step: Step): Sys {
    match step
    case Tick(now) => if s.clock <= now then s.(clock := now) else s
    case Sign(jti, challenge) => if jti in s.signed then s else s.(signed := s.signed[jti := challenge])
    case Open(id, jti, kind) =>
      if MayOpen(s, id, jti) then s.(requests := s.requests[id := Request(jti, kind, Opened)]) else s
    case OtherAttempt(account, lockedAt) =>
      if lockedAt <= s.clock then s.(attempts := AttemptStore.ClaimAccount(s.attempts, account, lockedAt, s.clock).0) else s
    case OtherClear(account) => s.(attempts := AttemptStore.ClearAccount(s.attempts, account))
    case SweepAccounts => s.(attempts := s.attempts.(accounts := AttemptStore.KeptAccounts(s.attempts.accounts, s.clock)))
    case SweepAnswers => s.(attempts := s.attempts.(challenges := AttemptStore.KeptChallenges(s.attempts.challenges, s.clock)))
    case SweepTombstones =>
      s.(tombstones := map j | j in s.tombstones && !(s.tombstones[j] < s.clock) :: s.tombstones[j])
    case SweepOptions => s.(open := ForgetOptions(s.open, s.clock))
    case _ => s
  }

  predicate IsRequestStep(step: Step) {
    || step.Issue? || step.Admit? || step.Spend? || step.Check?
    || step.Consume? || step.Advance? || step.Clear? || step.Start?
  }

  function Next(s: Sys, step: Step): Sys {
    if IsRequestStep(step) then RequestStep(s, step) else OutsideStep(s, step)
  }

  function Run(s: Sys, steps: seq<Step>): Sys
    decreases |steps|
  {
    if steps == [] then s else Run(Next(s, steps[0]), steps[1..])
  }

  /** No challenge yet; any account rows and any clock. */
  ghost predicate Initial(s: Sys) {
    && s.signed == map[] && s.attempts.challenges == map[] && s.tombstones == map[] && s.open == map[] && s.requests == map[]
    && s.admitted == multiset{} && s.consumed == multiset{} && s.sessions == multiset{}
    && s.issued == multiset{} && s.answered == multiset{}
  }
}

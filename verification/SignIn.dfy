/**
 The sign-in use cases whole: in front of the sessions stand the back-off on attempts and the
 open passkey options, and beside them the kind each principal shows. Every request that tests
 a secret claims an attempt first; every session that starts clears the account's attempts.
 */
module SignIn {
  import opened Accounts
  import AttemptPolicy
  import AttemptStore
  import Challenges
  import opened Common
  import Sessions
  import Tokens

  type Jti = Tokens.Jti

  /**
   `emails` is the email of each account, `accounts` the unique index on it, `kinds` the kind
   of each principal. The back-off knows an account by its email.
   */
  datatype Service = Service(
    world: Sessions.World,
    emails: map<int, string>,
    accounts: map<string, int>,
    kinds: map<string, Kind>,
    attempts: AttemptStore.Store,
    options: map<Jti, Challenges.Options>,
    clock: int)

  /** The password a request carries, if it carries one. */
  datatype Password = Missing | Wrong | Right

  function EmailOf(sv: Service, uid: int): string {
    if uid in sv.emails then sv.emails[uid] else ""
  }

  // ----- the pieces -----

  function Claimed(sv: Service, email: string, now: int): (Service, bool) {
    var claim := AttemptStore.ClaimAccount(sv.attempts, email, now, now);
    (sv.(attempts := claim.0), claim.1.Admitted?)
  }

  /** An answer to a challenge counts against the challenge, too. */
  function ClaimedAnswer(sv: Service, jti: Jti, now: int): (Service, bool)
    requires jti in sv.world.tokens.signed
  {
    var claims := sv.world.tokens.signed[jti];
    var claim := AttemptStore.ClaimChallenge(sv.attempts, EmailOf(sv, claims.uid), jti, claims.exp * 1000,
                                             AttemptPolicy.ATTEMPTS_PER_CHALLENGE, now, now);
    (sv.(attempts := claim.0), claim.1.ChallengeAdmitted?)
  }

  /** A request reaches the sessions. */
  function Passed(sv: Service, request: Sessions.Request, now: int): Service {
    sv.(world := Sessions.Next(sv.world, request, now))
  }

  /** One that may mint a principal for `uid` does; the principal gets the kind of the role. */
  function Reached(sv: Service, request: Sessions.Request, uid: int, now: int): Service {
    var passed := Passed(sv, request, now);
    var w := passed.world;
    if uid in w.principals && uid !in sv.world.principals && uid in w.users
    then passed.(kinds := sv.kinds[w.principals[uid] := PrincipalKindForRole(w.users[uid].role)])
    else passed
  }

  /** A session or an enrolment starts: the kind follows the role and the attempts are forgotten. */
  function Succeeded(sv: Service, uid: int): Service {
    var synced := if uid in sv.world.principals && uid in sv.world.users
                  then sv.kinds[sv.world.principals[uid] := PrincipalKindForRole(sv.world.users[uid].role)]
                  else sv.kinds;
    sv.(kinds := synced, attempts := AttemptStore.ClearAccount(sv.attempts, EmailOf(sv, uid)))
  }

  // ----- the requests -----

  function SignedUp(sv: Service, email: string, uid: int, client: Tokens.RequestClient, ids: Sessions.Ids, now: int): Service {
    if email in sv.accounts || uid in sv.world.users then sv
    else
      var filed := sv.(emails := sv.emails[uid := email], accounts := sv.accounts[email := uid]);
      Succeeded(Reached(filed, Sessions.Registers(uid, client, ids), uid, now), uid)
  }

  function SignedIn(sv: Service, email: string, ok: bool, client: Tokens.RequestClient, ids: Sessions.Ids, now: int): Service {
    var claim := Claimed(sv, email, now);
    if !claim.1 || email !in sv.accounts || !ok || sv.accounts[email] !in sv.world.users then claim.0
    else
      var uid := sv.accounts[email];
      var reached := Reached(claim.0, Sessions.LogsIn(uid, true, client, ids), uid, now);
      if sv.world.users[uid].twoFactor then reached else Succeeded(reached, uid)
  }

  function AnsweredCode(sv: Service, jti: Jti, matched: Option<int>, client: Tokens.RequestClient, ids: Sessions.Ids, now: int): Service {
    if !Sessions.OpenChallenge(sv.world, jti, now) then sv
    else
      var claim, uid := ClaimedAnswer(sv, jti, now), sv.world.tokens.signed[jti].uid;
      if !claim.1 then claim.0
      else
        var reached := Reached(claim.0, Sessions.AnswersCode(jti, matched, client, ids), uid, now);
        if Sessions.CodeStarts(sv.world, jti, matched, now) then Succeeded(reached, uid) else reached
  }

  /** Options for an account that holds a passkey. */
  function GivenOptions(sv: Service, jti: Jti, held: bool, nonce: string, now: int): Service {
    if !Sessions.OpenChallenge(sv.world, jti, now) || !held then sv
    else sv.(options := Challenges.IssueSignIn(sv.options, jti, sv.world.tokens.signed[jti].uid, nonce, now))
  }

  function AnsweredPasskey(sv: Service, jti: Jti, asserted: bool, advanced: bool, client: Tokens.RequestClient,
                           ids: Sessions.Ids, now: int): Service
  {
    if !Sessions.OpenChallenge(sv.world, jti, now) then sv
    else
      var claim, uid := ClaimedAnswer(sv, jti, now), sv.world.tokens.signed[jti].uid;
      if !claim.1 then claim.0
      else
        var spent := Challenges.SpendSignIn(sv.options, jti, uid, now);
        var tried := claim.0.(options := spent.0);
        if spent.1.None? then tried
        else
          var reached := Reached(tried, Sessions.AnswersPasskey(jti, asserted, advanced, client, ids), uid, now);
          if asserted && advanced then Succeeded(reached, uid) else reached
  }

  function Renewed(sv: Service, jti: Jti, client: Tokens.RequestClient, ids: Sessions.Ids, now: int): Service {
    var uid := if jti in sv.world.tokens.signed then sv.world.tokens.signed[jti].uid else 0;
    Reached(sv, Sessions.Refreshes(jti, client, ids), uid, now)
  }

  function SignedOut(sv: Service, jti: Jti, refresh: Option<Jti>, now: int): Service {
    Passed(sv, Sessions.LogsOut(jti, refresh), now)
  }

  predicate FromSession(sv: Service, jti: Jti, uid: int, now: int) {
    Sessions.SessionOf(sv.world, jti, uid, now) && sv.world.tokens.signed[jti].Access?
  }

  /** Confirming the password of a signed-in account, to change its passkeys. */
  function Confirmed(sv: Service, jti: Jti, uid: int, now: int): Service {
    if FromSession(sv, jti, uid, now) then Claimed(sv, EmailOf(sv, uid), now).0 else sv
  }

  predicate CarriesPassword(sv: Service, jti: Jti, uid: int, password: Password, now: int) {
    Sessions.SessionOf(sv.world, jti, uid, now) && (sv.world.tokens.signed[jti].Access? ==> password != Missing)
  }

  /** A first secret; from an enrolment token no password is asked for, so nothing is claimed. */
  function SetUp(sv: Service, jti: Jti, uid: int, password: Password, secret: string, now: int): Service {
    if !CarriesPassword(sv, jti, uid, password, now) then sv
    else if sv.world.tokens.signed[jti].Enrolment? then
      Passed(sv, Sessions.SetsUp(jti, uid, true, secret), now)
    else
      var claim := Claimed(sv, EmailOf(sv, uid), now);
      if !claim.1 then claim.0 else Passed(claim.0, Sessions.SetsUp(jti, uid, password == Right, secret), now)
  }

  /** The claim is the first of the writes. */
  function Enabled2FA(sv: Service, jti: Jti, uid: int, password: Password, matched: Option<int>, writes: nat, now: int): Service {
    if !CarriesPassword(sv, jti, uid, password, now) || writes == 0 then sv
    else
      var claim := Claimed(sv, EmailOf(sv, uid), now);
      if !claim.1 then claim.0
      else Passed(claim.0, Sessions.Enables(jti, uid, password == Right, matched, writes - 1), now)
  }

  function Disabled2FA(sv: Service, jti: Jti, uid: int, ok: bool, matched: Option<int>, writes: nat, now: int): Service {
    if !FromSession(sv, jti, uid, now) || writes == 0 then sv
    else
      var claim := Claimed(sv, EmailOf(sv, uid), now);
      if !claim.1 then claim.0
      else Passed(claim.0, Sessions.Disables(jti, uid, ok, matched, writes - 1), now)
  }

  function Swept(sv: Service, now: int): Service {
    Passed(sv, Sessions.Sweeps, now).(
      attempts := AttemptStore.SweepStore(sv.attempts, now),
      options := Challenges.ForgetOptions(sv.options, now))
  }

  // ----- the use cases, over the stores they write -----

  class SignInUsecases {
    const core: Sessions.AuthUsecase
    const store: AttemptStore.SignInAttempts
    const passkeys: Challenges.PasskeyChallenges
    var emails: map<int, string>
    var accounts: map<string, int>
    var kinds: map<string, Kind>
    var clock: int

    function State(): Service
      reads this, core, core.tokens, store, passkeys
    {
      Service(core.State(), emails, accounts, kinds, store.State(), passkeys.open, clock)
    }

    constructor (core: Sessions.AuthUsecase, store: AttemptStore.SignInAttempts, passkeys: Challenges.PasskeyChallenges, clock: int)
      ensures this.core == core && this.store == store && this.passkeys == passkeys
      ensures State() == Service(core.State(), map[], map[], map[], store.State(), passkeys.open, clock)
    {
      this.core, this.store, this.passkeys, this.clock := core, store, passkeys, clock;
      emails, accounts, kinds := map[], map[], map[];
    }

    method Claim(email: string, now: int) returns (admitted: bool)
      modifies store
      ensures (State(), admitted) == Claimed(old(State()), email, now)
    {
      var admission := store.ClaimAccountAttempt(email, now, now);
      admitted := admission.Admitted?;
    }

    method ClaimAnswer(jti: Jti, now: int) returns (admitted: bool)
      requires jti in core.tokens.signed
      modifies store
      ensures (State(), admitted) == ClaimedAnswer(old(State()), jti, now)
    {
      var claims := core.tokens.signed[jti];
      var email := if claims.uid in emails then emails[claims.uid] else "";
      var outcome := store.ClaimChallengeAttempt(email, jti, claims.exp * 1000, AttemptPolicy.ATTEMPTS_PER_CHALLENGE, now, now);
      admitted := outcome.ChallengeAdmitted?;
    }

    /** The kind a principal gets when it is minted for an account. */
    method NoteMinted(uid: int, known: bool)
      modifies this`kinds
      ensures kinds == if uid in core.principals && !known && uid in core.users
                       then old(kinds)[core.principals[uid] := PrincipalKindForRole(core.users[uid].role)] else old(kinds)
    {
      if uid in core.principals && !known && uid in core.users {
        kinds := kinds[core.principals[uid] := PrincipalKindForRole(core.users[uid].role)];
      }
    }

    method Succeed(uid: int)
      modifies this`kinds, store
      ensures State() == Succeeded(old(State()), uid)
    {
      if uid in core.principals && uid in core.users {
        kinds := kinds[core.principals[uid] := PrincipalKindForRole(core.users[uid].role)];
      }
      store.ClearAccountAttempts(if uid in emails then emails[uid] else "");
    }

    method Register(email: string, uid: int, client: Tokens.RequestClient, ids: Sessions.Ids, now: int)
      requires Sessions.Enabled(core.State(), Sessions.Registers(uid, client, ids), now)
      modifies this, core, core.tokens, store
      ensures State() == SignedUp(old(State()), email, uid, client, ids, now)
    {
      if email in accounts || uid in core.users {
        return;
      }
      emails, accounts := emails[uid := email], accounts[email := uid];
      ReachSignUp(uid, client, ids, now);
      Succeed(uid);
    }

    method ReachSignUp(uid: int, client: Tokens.RequestClient, ids: Sessions.Ids, now: int)
      requires Sessions.Enabled(core.State(), Sessions.Registers(uid, client, ids), now)
      modifies this`kinds, core, core.tokens
      ensures State() == Reached(old(State()), Sessions.Registers(uid, client, ids), uid, now)
    {
      var known := uid in core.principals;
      var _ := core.SignUp(uid, client, ids, now);
      core.clock := now;
      NoteMinted(uid, known);
    }

    method LogIn(email: string, ok: bool, client: Tokens.RequestClient, ids: Sessions.Ids, now: int)
      requires email in accounts ==> Sessions.Enabled(core.State(), Sessions.LogsIn(accounts[email], true, client, ids), now)
      modifies this, core, core.tokens, store
      ensures State() == SignedIn(old(State()), email, ok, client, ids, now)
    {
      var admitted := Claim(email, now);
      if !admitted || email !in accounts || !ok || accounts[email] !in core.users {
        return;
      }
      var uid := accounts[email];
      var known, challenged := uid in core.principals, core.users[uid].twoFactor;
      var _ := core.LogIn(uid, true, client, ids, now);
      core.clock := now;
      NoteMinted(uid, known);
      if !challenged {
        Succeed(uid);
      }
    }

    method VerifyTwoFactor(jti: Jti, matched: Option<int>, client: Tokens.RequestClient, ids: Sessions.Ids, now: int)
      requires Sessions.Enabled(core.State(), Sessions.AnswersCode(jti, matched, client, ids), now)
      modifies this, core, core.tokens, store
      ensures State() == AnsweredCode(old(State()), jti, matched, client, ids, now)
    {
      if !Sessions.OpenChallenge(core.State(), jti, now) {
        return;
      }
      var uid := core.tokens.signed[jti].uid;
      var admitted := ClaimAnswer(jti, now);
      if !admitted {
        return;
      }
      var known := uid in core.principals;
      var started := core.Verify(jti, matched, client, ids, now);
      core.clock := now;
      NoteMinted(uid, known);
      if started {
        Succeed(uid);
      }
    }

    method SignInOptions(jti: Jti, held: bool, nonce: string, now: int)
      modifies passkeys
      ensures State() == GivenOptions(old(State()), jti, held, nonce, now)
    {
      if !Sessions.OpenChallenge(core.State(), jti, now) || !held {
        return;
      }
      passkeys.Issue(core.tokens.signed[jti].uid, jti, nonce, now);
    }

    method VerifySignIn(jti: Jti, asserted: bool, advanced: bool, client: Tokens.RequestClient, ids: Sessions.Ids, now: int)
      requires Sessions.Enabled(core.State(), Sessions.AnswersPasskey(jti, asserted, advanced, client, ids), now)
      modifies this, core, core.tokens, store, passkeys
      ensures State() == AnsweredPasskey(old(State()), jti, asserted, advanced, client, ids, now)
    {
      if !Sessions.OpenChallenge(core.State(), jti, now) {
        return;
      }
      var uid := core.tokens.signed[jti].uid;
      var admitted := ClaimAnswer(jti, now);
      if !admitted {
        return;
      }
      var expected := passkeys.Spend(jti, uid, now);
      if expected.None? {
        return;
      }
      var started := ReachPasskey(jti, uid, asserted, advanced, client, ids, now);
      if started {
        Succeed(uid);
      }
    }

    method ReachPasskey(jti: Jti, uid: int, asserted: bool, advanced: bool, client: Tokens.RequestClient, ids: Sessions.Ids, now: int)
      returns (started: bool)
      requires Sessions.Enabled(core.State(), Sessions.AnswersPasskey(jti, asserted, advanced, client, ids), now)
      modifies this`kinds, core, core.tokens
      ensures State() == Reached(old(State()), Sessions.AnswersPasskey(jti, asserted, advanced, client, ids), uid, now)
      ensures started == (Sessions.OpenChallenge(old(core.State()), jti, now) && asserted && advanced)
    {
      var known := uid in core.principals;
      started := core.VerifyAssertion(jti, asserted, advanced, client, ids, now);
      core.clock := now;
      NoteMinted(uid, known);
    }

    method SetUpTwoFactor(jti: Jti, uid: int, password: Password, secret: string, now: int)
      requires Sessions.Enabled(core.State(), Sessions.SetsUp(jti, uid, password == Right, secret), now)
      modifies this, core, core.tokens, store
      ensures State() == SetUp(old(State()), jti, uid, password, secret, now)
    {
      if !CarriesPassword(State(), jti, uid, password, now) {
        return;
      }
      var enrolling := core.tokens.signed[jti].Enrolment?;
      if !enrolling {
        var admitted := Claim(EmailOf(State(), uid), now);
        if !admitted {
          return;
        }
      }
      core.SetUp(jti, uid, enrolling || password == Right, secret, now);
      core.clock := now;
    }

    method EnableTwoFactor(jti: Jti, uid: int, password: Password, matched: Option<int>, writes: nat, now: int)
      requires Sessions.Enabled(core.State(), Sessions.Enables(jti, uid, password == Right, matched, writes), now)
      modifies this, core, core.tokens, store
      ensures State() == Enabled2FA(old(State()), jti, uid, password, matched, writes, now)
    {
      if !CarriesPassword(State(), jti, uid, password, now) || writes == 0 {
        return;
      }
      var admitted := Claim(EmailOf(State(), uid), now);
      if !admitted {
        return;
      }
      PassEnable(jti, uid, password == Right, matched, writes - 1, now);
    }

    method PassEnable(jti: Jti, uid: int, ok: bool, matched: Option<int>, writes: nat, now: int)
      requires Sessions.Enabled(core.State(), Sessions.Enables(jti, uid, ok, matched, writes), now)
      modifies core, core.tokens
      ensures State() == Passed(old(State()), Sessions.Enables(jti, uid, ok, matched, writes), now)
    {
      core.Enable(jti, uid, ok, matched, writes, now);
      core.clock := now;
    }

    method DisableTwoFactor(jti: Jti, uid: int, ok: bool, matched: Option<int>, writes: nat, now: int)
      requires Sessions.Enabled(core.State(), Sessions.Disables(jti, uid, ok, matched, writes), now)
      modifies this, core, core.tokens, store
      ensures State() == Disabled2FA(old(State()), jti, uid, ok, matched, writes, now)
    {
      if !FromSession(State(), jti, uid, now) || writes == 0 {
        return;
      }
      var admitted := Claim(EmailOf(State(), uid), now);
      if !admitted {
        return;
      }
      PassDisable(jti, uid, ok, matched, writes - 1, now);
    }

    method PassDisable(jti: Jti, uid: int, ok: bool, matched: Option<int>, writes: nat, now: int)
      requires Sessions.Enabled(core.State(), Sessions.Disables(jti, uid, ok, matched, writes), now)
      modifies core, core.tokens
      ensures State() == Passed(old(State()), Sessions.Disables(jti, uid, ok, matched, writes), now)
    {
      core.Disable(jti, uid, ok, matched, writes, now);
      core.clock := now;
    }
  }

  // ----- runs -----

  datatype Call =
    | SignsUp(email: string, uid: int, client: Tokens.RequestClient, ids: Sessions.Ids)
    | SignsIn(email: string, ok: bool, client: Tokens.RequestClient, ids: Sessions.Ids)
    | ProvesPassword(email: string, ok: bool)
    | SendsCode(jti: Jti, matched: Option<int>, client: Tokens.RequestClient, ids: Sessions.Ids)
    | AsksOptions(jti: Jti, held: bool, nonce: string)
    | SendsAssertion(jti: Jti, asserted: bool, advanced: bool, client: Tokens.RequestClient, ids: Sessions.Ids)
    | Renews(jti: Jti, client: Tokens.RequestClient, ids: Sessions.Ids)
    | SignsOut(jti: Jti, refresh: Option<Jti>)
    | ConfirmsPassword(jti: Jti, uid: int, ok: bool)
    | Prepares(jti: Jti, uid: int, password: Password, secret: string)
    | TurnsOn(jti: Jti, uid: int, password: Password, matched: Option<int>, writes: nat)
    | TurnsOff(jti: Jti, uid: int, ok: bool, matched: Option<int>, writes: nat)
    | ChangesRole(uid: int, role: Role)
    | Sweeps

  /** Ids are fresh, a matched step lies in the window, and no role becomes or stops being admin. */
  predicate MayCall(sv: Service, call: Call, now: int) {
    && sv.world.clock <= sv.clock <= now
    && match call
       case SignsUp(_, _, _, ids) => Sessions.FreshIds(sv.world, ids)
       case SignsIn(_, _, _, ids) => Sessions.FreshIds(sv.world, ids)
       case SendsCode(jti, matched, client, ids) => Sessions.Enabled(sv.world, Sessions.AnswersCode(jti, matched, client, ids), now)
       case SendsAssertion(_, _, _, _, ids) => Sessions.FreshIds(sv.world, ids)
       case Renews(_, _, ids) => Sessions.FreshIds(sv.world, ids)
       case TurnsOn(jti, uid, password, matched, writes) =>
         Sessions.Enabled(sv.world, Sessions.Enables(jti, uid, password == Right, matched, writes), now)
       case TurnsOff(jti, uid, ok, matched, writes) =>
         Sessions.Enabled(sv.world, Sessions.Disables(jti, uid, ok, matched, writes), now)
       case ChangesRole(uid, role) => Sessions.Enabled(sv.world, Sessions.ChangesRole(uid, role), now)
       case _ => true
  }

  function Serve(sv: Service, call: Call, now: int): Service {
    match call
    case SignsUp(email, uid, client, ids) => SignedUp(sv, email, uid, client, ids, now)
    case SignsIn(email, ok, client, ids) => SignedIn(sv, email, ok, client, ids, now)
    case ProvesPassword(email, _) => Claimed(sv, email, now).0
    case SendsCode(jti, matched, client, ids) => AnsweredCode(sv, jti, matched, client, ids, now)
    case AsksOptions(jti, held, nonce) => GivenOptions(sv, jti, held, nonce, now)
    case SendsAssertion(jti, asserted, advanced, client, ids) => AnsweredPasskey(sv, jti, asserted, advanced, client, ids, now)
    case Renews(jti, client, ids) => Renewed(sv, jti, client, ids, now)
    case SignsOut(jti, refresh) => SignedOut(sv, jti, refresh, now)
    case ConfirmsPassword(jti, uid, _) => Confirmed(sv, jti, uid, now)
    case Prepares(jti, uid, password, secret) => SetUp(sv, jti, uid, password, secret, now)
    case TurnsOn(jti, uid, password, matched, writes) => Enabled2FA(sv, jti, uid, password, matched, writes, now)
    case TurnsOff(jti, uid, ok, matched, writes) => Disabled2FA(sv, jti, uid, ok, matched, writes, now)
    case ChangesRole(uid, role) => Passed(sv, Sessions.ChangesRole(uid, role), now)
    case Sweeps => Swept(sv, now)
  }

  function Next(sv: Service, call: Call, now: int): Service {
    if MayCall(sv, call, now) then Serve(sv, call, now).(clock := now) else sv
  }

  function Run(sv: Service, calls: seq<(Call, int)>): Service
    decreases |calls|
  {
    if calls == [] then sv else Run(Next(sv, calls[0].0, calls[0].1), calls[1..])
  }

  /** Any accounts and attempts, and no session yet. */
  ghost predicate Initial(sv: Service) {
    Sessions.Initial(sv.world) && sv.world.clock <= sv.clock
  }
}

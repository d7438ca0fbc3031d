/**
 Signing in and staying signed in: accounts with a role and a second factor, the sessions
 they start, renew and end, and the rule that an admin has no session without a second
 factor. A request is one step, except that enabling and disabling the second factor may
 stop after any of their writes.
 */
module Sessions {
  import opened Accounts
  import opened Common
  import opened Tokens
  import opened TotpWindow

  datatype User = User(role: Role, twoFactor: bool, secret: Option<string>, lastStep: Option<int>)

  /** A one-time-password step accepted for an account, and when. */
  datatype Burn = Burn(at: int, step: int)

  /** `principals` are the identity aliases; `burned` records every accepted step. */
  datatype World = World(users: map<int, User>, principals: map<int, string>, tokens: Store,
                         burned: map<int, seq<Burn>>, clock: int)

  /** What a request that may mint draws at random. */
  datatype Ids = Ids(access: Jti, refresh: Jti, family: Family, principal: string)

  predicate FreshIds(w: World, ids: Ids) {
    Fresh(w.tokens, ids.access, ids.refresh) && OfFamily(w.tokens, ids.family) == {}
  }

  // ----- single writes -----

  function Burns(w: World, uid: int): seq<Burn> {
    if uid in w.burned then w.burned[uid] else []
  }

  predicate StepIsFresh(user: User, step: int) {
    user.lastStep.None? || user.lastStep.value < step
  }

  function BurnStep(w: World, uid: int, step: int, now: int): World
    requires uid in w.users
  {
    w.(users := w.users[uid := w.users[uid].(lastStep := Some(step))],
       burned := w.burned[uid := Burns(w, uid) + [Burn(now, step)]])
  }

  /** Save the account's second factor; a save does not carry the last step. */
  function SaveTwoFactor(w: World, uid: int, enabled: bool, secret: Option<string>): World
    requires uid in w.users
  {
    w.(users := w.users[uid := w.users[uid].(twoFactor := enabled, secret := secret)])
  }

  function ResolveOrMint(w: World, uid: int, principal: string): World {
    if uid in w.principals then w else w.(principals := w.principals[uid := principal])
  }

  function EndEverySession(w: World, principal: string, reason: string): World {
    w.(tokens := RevokeAllFamilies(w.tokens, principal, reason))
  }

  function EndOtherSessions(w: World, principal: string, kept: Family, reason: string): World {
    w.(tokens := RevokeOtherSessions(w.tokens, principal, Some(kept), reason))
  }

  /** Revoke a signed token until its own expiry. */
  function DropToken(w: World, jti: Jti): World
    requires jti in w.tokens.signed
  {
    w.(tokens := RecordRevokedJti(w.tokens, jti, w.tokens.signed[jti].exp * 1000).0)
  }

  function SignToken(w: World, jti: Jti, token: Token): World {
    w.(tokens := w.tokens.(signed := w.tokens.signed[jti := token]))
  }

  // ----- requests -----

  function StartSession(w: World, uid: int, client: RequestClient, ids: Ids, now: int): World
    requires uid in w.users
  {
    if RequiresTwoFactor(w.users[uid].role) && !w.users[uid].twoFactor then w
    else
      var r := ResolveOrMint(w, uid, ids.principal);
      r.(tokens := MintPair(r.tokens, r.principals[uid], uid, ids.family, ClientNameOf(client), ids.access, ids.refresh, now))
  }

  function Register(w: World, uid: int, client: RequestClient, ids: Ids, now: int): World {
    if uid in w.users then w
    else StartSession(w.(users := w.users[uid := User(Customer, false, None, None)]), uid, client, ids, now)
  }

  function Login(w: World, uid: int, passwordOk: bool, client: RequestClient, ids: Ids, now: int): World {
    if uid !in w.users || !passwordOk then w
    else
      var user, r := w.users[uid], ResolveOrMint(w, uid, ids.principal);
      var iat := now / 1000;
      if user.twoFactor then
        SignToken(r, ids.access, Challenge(r.principals[uid], uid, iat + MFA_CHALLENGE_TTL_SECONDS))
      else if RequiresTwoFactor(user.role) then
        SignToken(r, ids.access, Enrolment(r.principals[uid], uid, iat + MFA_ENROLMENT_TTL_SECONDS, ClientNameOf(client)))
      else StartSession(w, uid, client, ids, now)
  }

  /** A challenge that may still be answered, for an account whose second factor is on. */
  predicate OpenChallenge(w: World, jti: Jti, now: int) {
    && Accepted(w.tokens, jti, now) && w.tokens.signed[jti].Challenge?
    && w.tokens.signed[jti].uid in w.users
    && w.users[w.tokens.signed[jti].uid].twoFactor && w.users[w.tokens.signed[jti].uid].secret.Some?
  }

  /** The answer starts a session: its step is later than every step accepted before. */
  predicate CodeStarts(w: World, jti: Jti, matched: Option<int>, now: int) {
    OpenChallenge(w, jti, now) && matched.Some? && StepIsFresh(w.users[w.tokens.signed[jti].uid], matched.value)
  }

  function VerifyTwoFactor(w: World, jti: Jti, matched: Option<int>, client: RequestClient, ids: Ids, now: int): World {
    if !OpenChallenge(w, jti, now) || matched.None? then w
    else
      var uid, consumed := w.tokens.signed[jti].uid, DropToken(w, jti);
      if !StepIsFresh(w.users[uid], matched.value) then consumed
      else StartSession(BurnStep(consumed, uid, matched.value, now), uid, client, ids, now)
  }

  function VerifyPasskey(w: World, jti: Jti, asserted: bool, advanced: bool, client: RequestClient, ids: Ids, now: int): World {
    if !OpenChallenge(w, jti, now) || !asserted then w
    else
      var consumed := DropToken(w, jti);
      if !advanced then consumed else StartSession(consumed, w.tokens.signed[jti].uid, client, ids, now)
  }

  datatype Renewal =
    | Unauthorized
    | ClientMismatch
    | NoAccount
    | TwoFactorRequired
    | Outcome(rotation: Rotation)

  function RefreshSession(w: World, jti: Jti, client: RequestClient, ids: Ids, now: int): (World, Renewal) {
    if !Verified(w.tokens, jti, now) || !w.tokens.signed[jti].Refresh? then (w, Unauthorized)
    else
      var claims := w.tokens.signed[jti];
      if SessionClientDecision(claims.azp, client) == Mismatch then (w, ClientMismatch)
      else if claims.uid !in w.users then (w, NoAccount)
      else if RequiresTwoFactor(w.users[claims.uid].role) && !w.users[claims.uid].twoFactor then
        (w.(tokens := RevokeFamily(w.tokens, claims.fam, "two_factor_required")), TwoFactorRequired)
      else
        var r := ResolveOrMint(w, claims.uid, ids.principal);
        var rotation := Rotate(r.tokens, jti, claims.uid, client, ids.access, ids.refresh, now);
        (r.(tokens := rotation.0), Outcome(rotation.1))
  }

  /** End one session of the caller, named by a refresh token of its own, or all of them. */
  function Logout(w: World, access: Jti, refresh: Option<Jti>, now: int): World {
    if !Accepted(w.tokens, access, now) || !w.tokens.signed[access].Access? then w
    else
      var claims := w.tokens.signed[access];
      var dropped := DropToken(w, access);
      if refresh.None? then EndEverySession(dropped, claims.sub, "logout")
      else if !Verified(w.tokens, refresh.value, now) || !w.tokens.signed[refresh.value].Refresh?
              || w.tokens.signed[refresh.value].sub != claims.sub then w
      else dropped.(tokens := RevokeFamily(dropped.tokens, w.tokens.signed[refresh.value].fam, "logout"))
  }

  /** The token is a session of the account: an access token, or an enrolment token. */
  predicate SessionOf(w: World, jti: Jti, uid: int, now: int) {
    && Accepted(w.tokens, jti, now) && (w.tokens.signed[jti].Access? || w.tokens.signed[jti].Enrolment?)
    && w.tokens.signed[jti].uid == uid && uid in w.users
  }

  function SetupTwoFactor(w: World, jti: Jti, uid: int, passwordOk: bool, secret: string, now: int): World {
    if !SessionOf(w, jti, uid, now) || (w.tokens.signed[jti].Access? && !passwordOk) || w.users[uid].twoFactor then w
    else SaveTwoFactor(w, uid, false, Some(secret))
  }

  predicate MayEnable(w: World, jti: Jti, uid: int, passwordOk: bool, matched: Option<int>, now: int) {
    && SessionOf(w, jti, uid, now) && (w.tokens.signed[jti].Access? ==> passwordOk)
    && w.users[uid].secret.Some? && matched.Some? && StepIsFresh(w.users[uid], matched.value)
  }

  /** The writes that follow the burnt code; `writes` of them happen before the process stops. */
  function FinishEnabling(w: World, jti: Jti, uid: int, writes: nat): World
    requires uid in w.users && jti in w.tokens.signed
    requires w.tokens.signed[jti].Access? || w.tokens.signed[jti].Enrolment?
  {
    var claims := w.tokens.signed[jti];
    if writes == 0 then w
    else if claims.Enrolment? then
      var ended := EndEverySession(w, claims.sub, "two_factor_enabled");
      if writes == 1 then ended
      else if writes == 2 then DropToken(ended, jti)
      else SaveTwoFactor(DropToken(ended, jti), uid, true, w.users[uid].secret)
    else
      var ended := EndOtherSessions(w, claims.sub, claims.fam, "two_factor_enabled");
      if writes == 1 then ended else SaveTwoFactor(ended, uid, true, w.users[uid].secret)
  }

  /**
   Turning the second factor on: burn the code, end the other sessions (with an enrolment
   token: every session, then the token itself), and only then save. `writes` is how many of
   these writes happen before the process stops.
   */
  function EnableTwoFactor(w: World, jti: Jti, uid: int, passwordOk: bool, matched: Option<int>, writes: nat, now: int): World {
    if !MayEnable(w, jti, uid, passwordOk, matched, now) || writes == 0 then w
    else FinishEnabling(BurnStep(w, uid, matched.value, now), jti, uid, writes - 1)
  }

  predicate MayDisable(w: World, jti: Jti, uid: int, passwordOk: bool, matched: Option<int>, now: int) {
    && SessionOf(w, jti, uid, now) && w.tokens.signed[jti].Access? && passwordOk
    && w.users[uid].twoFactor && w.users[uid].secret.Some?
    && matched.Some? && StepIsFresh(w.users[uid], matched.value)
  }

  function FinishDisabling(w: World, jti: Jti, uid: int, writes: nat): World
    requires uid in w.users && jti in w.tokens.signed && w.tokens.signed[jti].Access?
  {
    var claims := w.tokens.signed[jti];
    if writes == 0 then w
    else if RequiresTwoFactor(w.users[uid].role) then
      var ended := EndEverySession(w, claims.sub, "two_factor_disabled");
      if writes == 1 then ended
      else if writes == 2 then DropToken(ended, jti)
      else SaveTwoFactor(DropToken(ended, jti), uid, false, None)
    else
      var ended := EndOtherSessions(w, claims.sub, claims.fam, "two_factor_disabled");
      if writes == 1 then ended else SaveTwoFactor(ended, uid, false, None)
  }

  /** Turning it off: burn the code, end the other sessions (an admin's: every one), then save. */
  function DisableTwoFactor(w: World, jti: Jti, uid: int, passwordOk: bool, matched: Option<int>, writes: nat, now: int): World {
    if !MayDisable(w, jti, uid, passwordOk, matched, now) || writes == 0 then w
    else FinishDisabling(BurnStep(w, uid, matched.value, now), jti, uid, writes - 1)
  }

  // ----- the use cases, writing their stores in order -----

  class AuthUsecase {
    const tokens: TokenService
    var users: map<int, User>
    var principals: map<int, string>
    var burned: map<int, seq<Burn>>
    var clock: int

    function State(): World
      reads this, tokens
    {
      World(users, principals, tokens.State(), burned, clock)
    }

    constructor (tokens: TokenService, users: map<int, User>, clock: int)
      ensures this.tokens == tokens && State() == World(users, map[], tokens.State(), map[], clock)
    {
      this.tokens, this.users, this.clock := tokens, users, clock;
      principals, burned := map[], map[];
    }

    /** UPDATE ... WHERE the last step is null or smaller; true when one row changed. */
    method AcceptTwoFactorStep(uid: int, step: int, now: int) returns (accepted: bool)
      requires uid in users
      modifies this`users, this`burned
      ensures accepted == StepIsFresh(old(users[uid]), step)
      ensures State() == if accepted then BurnStep(old(State()), uid, step, now) else old(State())
    {
      if users[uid].lastStep.Some? && users[uid].lastStep.value >= step {
        return false;
      }
      users := users[uid := users[uid].(lastStep := Some(step))];
      burned := burned[uid := (if uid in burned then burned[uid] else []) + [Burn(now, step)]];
      accepted := true;
    }

    method Save(uid: int, enabled: bool, secret: Option<string>)
      requires uid in users
      modifies this`users
      ensures State() == SaveTwoFactor(old(State()), uid, enabled, secret)
      ensures users.Keys == old(users).Keys && forall u :: u in users && u != uid ==> users[u] == old(users)[u]
      ensures forall step :: StepIsFresh(users[uid], step) == StepIsFresh(old(users)[uid], step)
    {
      users := users[uid := users[uid].(twoFactor := enabled, secret := secret)];
    }

    method Resolve(uid: int, principal: string) returns (resolved: string)
      modifies this`principals
      ensures State() == ResolveOrMint(old(State()), uid, principal)
      ensures uid in principals && resolved == principals[uid]
    {
      if uid !in principals {
        principals := principals[uid := principal];
      }
      resolved := principals[uid];
    }

    method Start(uid: int, client: RequestClient, ids: Ids, now: int) returns (started: bool)
      requires uid in users
      modifies this, tokens
      ensures State() == StartSession(old(State()), uid, client, ids, now)
      ensures started == !(RequiresTwoFactor(old(users[uid]).role) && !old(users[uid]).twoFactor)
    {
      var user := users[uid];
      if RequiresTwoFactor(user.role) && !user.twoFactor {
        return false;
      }
      var principal := Resolve(uid, ids.principal);
      tokens.Mint(principal, uid, ids.family, ClientNameOf(client), ids.access, ids.refresh, now);
      started := true;
    }

    method Refresh(jti: Jti, client: RequestClient, ids: Ids, now: int) returns (renewal: Renewal)
      requires FreshIds(State(), ids)
      modifies this, tokens
      ensures (State(), renewal) == RefreshSession(old(State()), jti, client, ids, now)
    {
      if jti !in tokens.signed || now / 1000 >= tokens.signed[jti].exp || !tokens.signed[jti].Refresh? {
        return Unauthorized;
      }
      var claims := tokens.signed[jti];
      if SessionClientDecision(claims.azp, client) == Mismatch {
        return ClientMismatch;
      }
      if claims.uid !in users {
        return NoAccount;
      }
      var user := users[claims.uid];
      if RequiresTwoFactor(user.role) && !user.twoFactor {
        tokens.RevokeWhere(set j | j in tokens.rows && tokens.rows[j].family == claims.fam, "two_factor_required");
        return TwoFactorRequired;
      }
      var _ := Resolve(claims.uid, ids.principal);
      var rotation := tokens.RotateToken(jti, claims.uid, client, ids.access, ids.refresh, now);
      renewal := Outcome(rotation);
    }

    method Verify(jti: Jti, matched: Option<int>, client: RequestClient, ids: Ids, now: int) returns (started: bool)
      modifies this, tokens
      ensures State() == VerifyTwoFactor(old(State()), jti, matched, client, ids, now)
      ensures started == CodeStarts(old(State()), jti, matched, now)
    {
      if !OpenChallenge(State(), jti, now) || matched.None? {
        return false;
      }
      var claims := tokens.signed[jti];
      var consumed := tokens.InsertTombstone(jti, claims.exp * 1000);
      var accepted := AcceptTwoFactorStep(claims.uid, matched.value, now);
      if !accepted {
        return false;
      }
      started := Start(claims.uid, client, ids, now);
    }

    method VerifyAssertion(jti: Jti, asserted: bool, advanced: bool, client: RequestClient, ids: Ids, now: int)
      returns (started: bool)
      modifies this, tokens
      ensures State() == VerifyPasskey(old(State()), jti, asserted, advanced, client, ids, now)
      ensures started == (OpenChallenge(old(State()), jti, now) && asserted && advanced)
    {
      if !OpenChallenge(State(), jti, now) || !asserted {
        return false;
      }
      var claims := tokens.signed[jti];
      var consumed := tokens.InsertTombstone(jti, claims.exp * 1000);
      if !advanced {
        return false;
      }
      started := Start(claims.uid, client, ids, now);
    }

    method SignUp(uid: int, client: RequestClient, ids: Ids, now: int) returns (started: bool)
      modifies this, tokens
      ensures State() == Register(old(State()), uid, client, ids, now)
      ensures started == (uid !in old(users))
    {
      if uid in users {
        return false;
      }
      users := users[uid := User(Customer, false, None, None)];
      started := Start(uid, client, ids, now);
    }

    method LogIn(uid: int, passwordOk: bool, client: RequestClient, ids: Ids, now: int) returns (started: bool)
      modifies this, tokens
      ensures State() == Login(old(State()), uid, passwordOk, client, ids, now)
      ensures started == (uid in old(users) && passwordOk && !old(users[uid]).twoFactor
                          && !RequiresTwoFactor(old(users[uid]).role))
    {
      if uid !in users || !passwordOk {
        return false;
      }
      var user, iat := users[uid], now / 1000;
      if user.twoFactor {
        var principal := Resolve(uid, ids.principal);
        tokens.SignOnly(ids.access, Challenge(principal, uid, iat + MFA_CHALLENGE_TTL_SECONDS));
        return false;
      }
      if RequiresTwoFactor(user.role) {
        var principal := Resolve(uid, ids.principal);
        tokens.SignOnly(ids.access, Enrolment(principal, uid, iat + MFA_ENROLMENT_TTL_SECONDS, ClientNameOf(client)));
        return false;
      }
      started := Start(uid, client, ids, now);
    }

    method LogOut(access: Jti, refresh: Option<Jti>, now: int)
      modifies this, tokens
      ensures State() == Logout(old(State()), access, refresh, now)
    {
      if !Accepted(tokens.State(), access, now) || !tokens.signed[access].Access? {
        return;
      }
      var claims := tokens.signed[access];
      if refresh.Some? {
        if !Verified(tokens.State(), refresh.value, now) || !tokens.signed[refresh.value].Refresh?
           || tokens.signed[refresh.value].sub != claims.sub {
          return;
        }
        var fam := tokens.signed[refresh.value].fam;
        var _ := tokens.InsertTombstone(access, claims.exp * 1000);
        tokens.RevokeWhere(set j | j in tokens.rows && tokens.rows[j].family == fam, "logout");
      } else {
        var _ := tokens.InsertTombstone(access, claims.exp * 1000);
        tokens.RevokeWhere(set j | j in tokens.rows && tokens.rows[j].principal == claims.sub, "logout");
      }
    }

    method SetUp(jti: Jti, uid: int, passwordOk: bool, secret: string, now: int)
      modifies this, tokens
      ensures State() == SetupTwoFactor(old(State()), jti, uid, passwordOk, secret, now)
    {
      if !SessionOf(State(), jti, uid, now) || (tokens.signed[jti].Access? && !passwordOk) || users[uid].twoFactor {
        return;
      }
      Save(uid, false, Some(secret));
    }

    method Enable(jti: Jti, uid: int, passwordOk: bool, matched: Option<int>, writes: nat, now: int)
      modifies this, tokens
      ensures State() == EnableTwoFactor(old(State()), jti, uid, passwordOk, matched, writes, now)
    {
      if !SessionOf(State(), jti, uid, now) || (tokens.signed[jti].Access? && !passwordOk) {
        return;
      }
      if users[uid].secret.None? || matched.None? || writes == 0 {
        return;
      }
      var accepted := AcceptTwoFactorStep(uid, matched.value, now);
      if accepted {
        FinishEnable(jti, uid, writes - 1);
      }
    }

    /** The writes after the burnt code. */
    method FinishEnable(jti: Jti, uid: int, writes: nat)
      requires uid in users && jti in tokens.signed && (tokens.signed[jti].Access? || tokens.signed[jti].Enrolment?)
      modifies this, tokens
      ensures State() == FinishEnabling(old(State()), jti, uid, writes)
    {
      if writes == 0 {
        return;
      }
      var claims, user := tokens.signed[jti], users[uid];
      if claims.Enrolment? {
        tokens.RevokeWhere(set j | j in tokens.rows && tokens.rows[j].principal == claims.sub, "two_factor_enabled");
        if writes == 1 {
          return;
        }
        var _ := tokens.InsertTombstone(jti, claims.exp * 1000);
        if writes == 2 {
          return;
        }
      } else {
        tokens.RevokeWhere((set j | j in tokens.rows && tokens.rows[j].principal == claims.sub)
                           - (set j | j in tokens.rows && tokens.rows[j].family == claims.fam), "two_factor_enabled");
        if writes == 1 {
          return;
        }
      }
      Save(uid, true, user.secret);
    }

    method Disable(jti: Jti, uid: int, passwordOk: bool, matched: Option<int>, writes: nat, now: int)
      modifies this, tokens
      ensures State() == DisableTwoFactor(old(State()), jti, uid, passwordOk, matched, writes, now)
    {
      if !SessionOf(State(), jti, uid, now) || !tokens.signed[jti].Access? || !passwordOk {
        return;
      }
      var claims, user := tokens.signed[jti], users[uid];
      if !user.twoFactor || user.secret.None? || matched.None? || writes == 0 {
        return;
      }
      var accepted := AcceptTwoFactorStep(uid, matched.value, now);
      if !accepted || writes == 1 {
        return;
      }
      if RequiresTwoFactor(user.role) {
        tokens.RevokeWhere(set j | j in tokens.rows && tokens.rows[j].principal == claims.sub, "two_factor_disabled");
        if writes == 2 {
          return;
        }
        var _ := tokens.InsertTombstone(jti, claims.exp * 1000);
        if writes == 3 {
          return;
        }
      } else {
        tokens.RevokeWhere((set j | j in tokens.rows && tokens.rows[j].principal == claims.sub)
                           - (set j | j in tokens.rows && tokens.rows[j].family == claims.fam), "two_factor_disabled");
        if writes == 2 {
          return;
        }
      }
      Save(uid, false, None);
    }
  }

  // ----- runs -----

  datatype Request =
    | Registers(uid: int, client: RequestClient, ids: Ids)
    | LogsIn(uid: int, passwordOk: bool, client: RequestClient, ids: Ids)
    | AnswersCode(jti: Jti, matched: Option<int>, client: RequestClient, ids: Ids)
    | AnswersPasskey(jti: Jti, asserted: bool, advanced: bool, client: RequestClient, ids: Ids)
    | Refreshes(jti: Jti, client: RequestClient, ids: Ids)
    | LogsOut(jti: Jti, refresh: Option<Jti>)
    | SetsUp(jti: Jti, uid: int, passwordOk: bool, secret: string)
    | Enables(jti: Jti, uid: int, passwordOk: bool, matched: Option<int>, writes: nat)
    | Disables(jti: Jti, uid: int, passwordOk: bool, matched: Option<int>, writes: nat)
    | ChangesRole(uid: int, role: Role)
    | Sweeps

  /** Ids are fresh, a matched step lies in the window, and no role becomes or stops being admin. */
  predicate Enabled(w: World, r: Request, now: int) {
    && w.clock <= now
    && match r
       case Registers(_, _, ids) => FreshIds(w, ids)
       case LogsIn(_, _, _, ids) => FreshIds(w, ids)
       case AnswersCode(_, matched, _, ids) => FreshIds(w, ids) && InWindow(matched, now)
       case AnswersPasskey(_, _, _, _, ids) => FreshIds(w, ids)
       case Refreshes(_, _, ids) => FreshIds(w, ids)
       case Enables(_, _, _, matched, _) => InWindow(matched, now)
       case Disables(_, _, _, matched, _) => InWindow(matched, now)
       case ChangesRole(uid, role) => uid in w.users && w.users[uid].role != Admin && role != Admin
       case _ => true
  }

  function Served(w: World, r: Request, now: int): World {
    match r
    case Registers(uid, client, ids) => Register(w, uid, client, ids, now)
    case LogsIn(uid, ok, client, ids) => Login(w, uid, ok, client, ids, now)
    case AnswersCode(jti, matched, client, ids) => VerifyTwoFactor(w, jti, matched, client, ids, now)
    case AnswersPasskey(jti, asserted, advanced, client, ids) => VerifyPasskey(w, jti, asserted, advanced, client, ids, now)
    case Refreshes(jti, client, ids) => RefreshSession(w, jti, client, ids, now).0
    case LogsOut(jti, refresh) => Logout(w, jti, refresh, now)
    case SetsUp(jti, uid, ok, secret) => SetupTwoFactor(w, jti, uid, ok, secret, now)
    case Enables(jti, uid, ok, matched, writes) => EnableTwoFactor(w, jti, uid, ok, matched, writes, now)
    case Disables(jti, uid, ok, matched, writes) => DisableTwoFactor(w, jti, uid, ok, matched, writes, now)
    case ChangesRole(uid, role) => if uid in w.users then w.(users := w.users[uid := w.users[uid].(role := role)]) else w
    case Sweeps => w.(tokens := SweepRevocations(w.tokens, now))
  }

  function Next(w: World, r: Request, now: int): World {
    if Enabled(w, r, now) then Served(w, r, now).(clock := now) else w
  }

  function Run(w: World, requests: seq<(Request, int)>): World
    decreases |requests|
  {
    if requests == [] then w else Run(Next(w, requests[0].0, requests[0].1), requests[1..])
  }

  /** Any accounts, among them admins with or without a second factor, and no session yet. */
  ghost predicate Initial(w: World) {
    w.tokens.signed == map[] && w.tokens.rows == map[] && w.tokens.tombstones == map[] && w.burned == map[]
  }
}

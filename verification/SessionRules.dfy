/**
 What holds over whole runs of sign-in requests: the admin rule, the order in which
 one-time codes are spent, and what a renewal by another client can change.
 */
module SessionRules {
  import opened Accounts
  import opened Common
  import opened Tokens
  import opened Sessions
  import opened TotpWindow
  import TokenFamilies

  /** Every token names a known account and that account's own principal. */
  ghost predicate AccountsInv(w: World) {
    forall j :: j in w.tokens.signed ==>
      && w.tokens.signed[j].uid in w.users && w.tokens.signed[j].uid in w.principals
      && w.tokens.signed[j].sub == w.principals[w.tokens.signed[j].uid]
  }

  predicate Unprotected(user: User) {
    RequiresTwoFactor(user.role) && !user.twoFactor
  }

  /** An admin without a second factor has only revoked refresh rows. */
  ghost predicate AdminInv(w: World) {
    forall j :: j in w.tokens.rows && w.tokens.rows[j].user in w.users && Unprotected(w.users[w.tokens.rows[j].user]) ==>
      w.tokens.rows[j].revoked.Some?
  }

  ghost predicate Increasing(burns: seq<Burn>) {
    forall i, k :: 0 <= i < k < |burns| ==> burns[i].step < burns[k].step
  }

  ghost predicate Windowed(burns: seq<Burn>) {
    forall i :: 0 <= i < |burns| ==> InWindow(Some(burns[i].step), burns[i].at)
  }

  /** The accepted steps strictly increase, and the account remembers the last of them. */
  ghost predicate BurnsInv(w: World) {
    forall uid :: uid in w.burned ==>
      && |w.burned[uid]| > 0 && Increasing(w.burned[uid]) && Windowed(w.burned[uid])
      && uid in w.users && w.users[uid].lastStep == Some(w.burned[uid][|w.burned[uid]| - 1].step)
  }

  ghost predicate Inv(w: World) {
    SignedInv(w.tokens) && AccountsInv(w) && AdminInv(w) && BurnsInv(w)
  }

  // ----- what each write keeps -----

  /** Tokens that differ only in rows newly revoked and in tombstones. */
  ghost predicate OnlyRevokes(s: Store, s': Store) {
    && s'.signed == s.signed && s'.rows.Keys == s.rows.Keys
    && forall j :: j in s.rows ==>
         s'.rows[j] == s.rows[j] || (s.rows[j].revoked.None? && s'.rows[j].revoked.Some?
                                     && s'.rows[j] == s.rows[j].(revoked := s'.rows[j].revoked))
  }

  lemma RevokingKeepsInv(w: World, s': Store)
    requires Inv(w) && OnlyRevokes(w.tokens, s')
    requires forall j :: j in s'.tombstones ==> j in s'.signed && s'.tombstones[j] == s'.signed[j].exp * 1000
    ensures Inv(w.(tokens := s'))
  {
  }

  lemma RevokeKeepsInv(w: World, which: set<Jti>, reason: string)
    requires Inv(w)
    ensures Inv(w.(tokens := Revoke(w.tokens, which, reason)))
  {
    RevokingKeepsInv(w, Revoke(w.tokens, which, reason));
  }

  lemma EndingKeepsInv(w: World, principal: string, kept: Family, reason: string)
    requires Inv(w)
    ensures Inv(EndEverySession(w, principal, reason)) && Inv(EndOtherSessions(w, principal, kept, reason))
  {
    RevokeKeepsInv(w, OfPrincipal(w.tokens, principal), reason);
    RevokeKeepsInv(w, OfPrincipal(w.tokens, principal) - OfFamily(w.tokens, kept), reason);
  }

  lemma DropKeepsInv(w: World, jti: Jti)
    requires Inv(w) && jti in w.tokens.signed
    ensures Inv(DropToken(w, jti))
  {
    RevokingKeepsInv(w, DropToken(w, jti).tokens);
  }

  lemma BurnKeepsInv(w: World, uid: int, step: int, now: int)
    requires Inv(w) && uid in w.users && StepIsFresh(w.users[uid], step) && InWindow(Some(step), now)
    ensures Inv(BurnStep(w, uid, step, now))
  {
    var w' := BurnStep(w, uid, step, now);
    forall u | u in w'.burned
      ensures |w'.burned[u]| > 0 && Increasing(w'.burned[u]) && Windowed(w'.burned[u])
      ensures u in w'.users && w'.users[u].lastStep == Some(w'.burned[u][|w'.burned[u]| - 1].step)
    {
      if u == uid && uid in w.burned {
        var past := w.burned[uid];
        assert forall i :: 0 <= i < |past| ==> past[i].step <= past[|past| - 1].step;
      }
    }
  }

  lemma SaveKeepsInv(w: World, uid: int, enabled: bool, secret: Option<string>)
    requires Inv(w) && uid in w.users
    requires enabled || w.users[uid].role != Admin
             || forall j :: j in w.tokens.rows && w.tokens.rows[j].user == uid ==> w.tokens.rows[j].revoked.Some?
    ensures Inv(SaveTwoFactor(w, uid, enabled, secret))
  {
  }

  lemma ResolveKeepsInv(w: World, uid: int, principal: string)
    requires Inv(w)
    ensures Inv(ResolveOrMint(w, uid, principal))
  {
  }

  lemma SignKeepsInv(w: World, jti: Jti, token: Token)
    requires Inv(w) && jti !in w.tokens.signed && token.uid in w.users && token.uid in w.principals
    requires token.sub == w.principals[token.uid]
    ensures Inv(SignToken(w, jti, token))
  {
  }

  lemma MintKeepsInv(w: World, uid: int, family: Family, client: Option<string>, a: Jti, r: Jti, now: int)
    requires Inv(w) && uid in w.users && uid in w.principals && !Unprotected(w.users[uid]) && Fresh(w.tokens, a, r)
    ensures Inv(w.(tokens := MintPair(w.tokens, w.principals[uid], uid, family, client, a, r, now)))
  {
  }

  lemma StartKeepsInv(w: World, uid: int, client: RequestClient, ids: Ids, now: int)
    requires Inv(w) && uid in w.users && Fresh(w.tokens, ids.access, ids.refresh)
    ensures Inv(StartSession(w, uid, client, ids, now))
  {
    if !Unprotected(w.users[uid]) {
      ResolveKeepsInv(w, uid, ids.principal);
      MintKeepsInv(ResolveOrMint(w, uid, ids.principal), uid, ids.family, ClientNameOf(client), ids.access, ids.refresh, now);
    }
  }

  // ----- what each request keeps -----

  lemma RestrictedLoginKeepsInv(w: World, uid: int, jti: Jti, token: Token, principal: string)
    requires Inv(w) && uid in w.users && jti !in w.tokens.signed && token.uid == uid
    requires token.sub == ResolveOrMint(w, uid, principal).principals[uid]
    ensures Inv(SignToken(ResolveOrMint(w, uid, principal), jti, token))
  {
    ResolveKeepsInv(w, uid, principal);
    SignKeepsInv(ResolveOrMint(w, uid, principal), jti, token);
  }

  lemma ChallengedLoginKeepsInv(w: World, uid: int, client: RequestClient, ids: Ids, now: int)
    requires Inv(w) && uid in w.users && w.users[uid].twoFactor && ids.access !in w.tokens.signed
    ensures Inv(Login(w, uid, true, client, ids, now))
  {
    var principal := ResolveOrMint(w, uid, ids.principal).principals[uid];
    RestrictedLoginKeepsInv(w, uid, ids.access, Challenge(principal, uid, now / 1000 + MFA_CHALLENGE_TTL_SECONDS), ids.principal);
  }

  lemma EnrollingLoginKeepsInv(w: World, uid: int, client: RequestClient, ids: Ids, now: int)
    requires Inv(w) && uid in w.users && Unprotected(w.users[uid]) && ids.access !in w.tokens.signed
    ensures Inv(Login(w, uid, true, client, ids, now))
  {
    var principal := ResolveOrMint(w, uid, ids.principal).principals[uid];
    RestrictedLoginKeepsInv(w, uid, ids.access,
      Enrolment(principal, uid, now / 1000 + MFA_ENROLMENT_TTL_SECONDS, ClientNameOf(client)), ids.principal);
  }

  lemma LoginKeepsInv(w: World, uid: int, ok: bool, client: RequestClient, ids: Ids, now: int)
    requires Inv(w) && Fresh(w.tokens, ids.access, ids.refresh)
    ensures Inv(Login(w, uid, ok, client, ids, now))
  {
    if uid !in w.users || !ok {
    } else if w.users[uid].twoFactor {
      ChallengedLoginKeepsInv(w, uid, client, ids, now);
    } else if Unprotected(w.users[uid]) {
      EnrollingLoginKeepsInv(w, uid, client, ids, now);
    } else {
      StartKeepsInv(w, uid, client, ids, now);
      assert Login(w, uid, ok, client, ids, now) == StartSession(w, uid, client, ids, now);
    }
  }

  lemma RegisterKeepsInv(w: World, uid: int, client: RequestClient, ids: Ids, now: int)
    requires Inv(w) && FreshIds(w, ids)
    ensures Inv(Register(w, uid, client, ids, now))
  {
    if uid !in w.users {
      StartKeepsInv(w.(users := w.users[uid := User(Customer, false, None, None)]), uid, client, ids, now);
    }
  }

  lemma AnswerKeepsInv(w: World, jti: Jti, matched: Option<int>, client: RequestClient, ids: Ids, now: int)
    requires Inv(w) && FreshIds(w, ids) && InWindow(matched, now)
    ensures Inv(VerifyTwoFactor(w, jti, matched, client, ids, now))
  {
    if OpenChallenge(w, jti, now) && matched.Some? {
      var uid, consumed := w.tokens.signed[jti].uid, DropToken(w, jti);
      DropKeepsInv(w, jti);
      if StepIsFresh(w.users[uid], matched.value) {
        BurnKeepsInv(consumed, uid, matched.value, now);
        StartKeepsInv(BurnStep(consumed, uid, matched.value, now), uid, client, ids, now);
      }
    }
  }

  lemma PasskeyKeepsInv(w: World, jti: Jti, asserted: bool, advanced: bool, client: RequestClient, ids: Ids, now: int)
    requires Inv(w) && FreshIds(w, ids)
    ensures Inv(VerifyPasskey(w, jti, asserted, advanced, client, ids, now))
  {
    if OpenChallenge(w, jti, now) && asserted {
      DropKeepsInv(w, jti);
      if advanced {
        StartKeepsInv(DropToken(w, jti), w.tokens.signed[jti].uid, client, ids, now);
      }
    }
  }

  /** Tokens that differ by one row spent and one put in its place, signed for nobody else. */
  ghost predicate OnlyRenews(w: World, s': Store, jti: Jti, r: Jti) {
    && TokenFamilies.Replaces(w.tokens.rows, s'.rows, jti, r) && SignedInv(s')
    && jti in w.tokens.signed && w.tokens.rows[jti].user == w.tokens.signed[jti].uid
    && (forall j :: j in s'.signed ==>
          || (j in w.tokens.signed && s'.signed[j] == w.tokens.signed[j])
          || (s'.signed[j].uid == w.tokens.signed[jti].uid && s'.signed[j].sub == w.tokens.signed[jti].sub))
  }

  lemma RenewingKeepsAccounts(w: World, s': Store, jti: Jti, r: Jti)
    requires AccountsInv(w) && OnlyRenews(w, s', jti, r)
    ensures AccountsInv(w.(tokens := s'))
  {
  }

  lemma RenewingKeepsAdmin(w: World, s': Store, jti: Jti, r: Jti)
    requires AdminInv(w) && OnlyRenews(w, s', jti, r) && w.tokens.signed[jti].uid in w.users
    requires !Unprotected(w.users[w.tokens.signed[jti].uid])
    ensures AdminInv(w.(tokens := s'))
  {
    forall j | j in s'.rows && s'.rows[j].user in w.users && Unprotected(w.users[s'.rows[j].user])
      ensures s'.rows[j].revoked.Some?
    {
      assert j != r && j != jti && s'.rows[j] == w.tokens.rows[j];
    }
  }

  /** A renewal mints only for an account that is not an unprotected admin. */
  lemma RotatedKeepsInv(w: World, jti: Jti, client: RequestClient, ids: Ids, now: int)
    requires Inv(w) && FreshIds(w, ids) && jti in w.tokens.signed
    requires !Unprotected(w.users[w.tokens.signed[jti].uid])
    requires Rotate(w.tokens, jti, w.tokens.signed[jti].uid, client, ids.access, ids.refresh, now).1.Rotated?
    ensures Inv(w.(tokens := Rotate(w.tokens, jti, w.tokens.signed[jti].uid, client, ids.access, ids.refresh, now).0))
  {
    var s' := Rotate(w.tokens, jti, w.tokens.signed[jti].uid, client, ids.access, ids.refresh, now).0;
    TokenFamilies.RotationReplaces(w.tokens, jti, w.tokens.signed[jti].uid, client, ids.access, ids.refresh, now);
    assert Matches(w.tokens.signed[jti], w.tokens.rows[jti]);
    RenewingKeepsAccounts(w, s', jti, ids.refresh);
    RenewingKeepsAdmin(w, s', jti, ids.refresh);
  }

  lemma RefreshKeepsInv(w: World, jti: Jti, client: RequestClient, ids: Ids, now: int)
    requires Inv(w) && FreshIds(w, ids)
    ensures Inv(RefreshSession(w, jti, client, ids, now).0)
  {
    var renewal := RefreshSession(w, jti, client, ids, now);
    if renewal.1.TwoFactorRequired? {
      RevokeKeepsInv(w, OfFamily(w.tokens, w.tokens.signed[jti].fam), "two_factor_required");
    } else if renewal.1.Outcome? {
      var uid := w.tokens.signed[jti].uid;
      var r := ResolveOrMint(w, uid, ids.principal);
      ResolveKeepsInv(w, uid, ids.principal);
      if renewal.1.rotation.Rotated? {
        RotatedKeepsInv(r, jti, client, ids, now);
      } else {
        TokenFamilies.RefusedRotation(r.tokens, jti, uid, client, ids.access, ids.refresh, now);
        if renewal.1.rotation == Refused(Reused) {
          RevokeKeepsInv(r, OfFamily(r.tokens, r.tokens.rows[jti].family), "rotation_reuse");
        }
      }
    }
  }

  lemma LogoutKeepsInv(w: World, access: Jti, refresh: Option<Jti>, now: int)
    requires Inv(w)
    ensures Inv(Logout(w, access, refresh, now))
  {
    if Accepted(w.tokens, access, now) && w.tokens.signed[access].Access? {
      var claims := w.tokens.signed[access];
      DropKeepsInv(w, access);
      EndingKeepsInv(DropToken(w, access), claims.sub, "", "logout");
      if refresh.Some? && refresh.value in w.tokens.signed && w.tokens.signed[refresh.value].Refresh? {
        var family := w.tokens.signed[refresh.value].fam;
        RevokeKeepsInv(DropToken(w, access), OfFamily(w.tokens, family), "logout");
      }
    }
  }

  /** Once its principal's sessions are ended, all of an account's rows are revoked. */
  lemma AllRowsEnded(w: World, uid: int, reason: string)
    requires Inv(w) && uid in w.principals
    ensures var s := RevokeAllFamilies(w.tokens, w.principals[uid], reason);
            forall j :: j in s.rows && s.rows[j].user == uid ==> s.rows[j].revoked.Some?
  {
    forall j | j in w.tokens.rows && w.tokens.rows[j].user == uid
      ensures j in OfPrincipal(w.tokens, w.principals[uid])
    {
      assert Matches(w.tokens.signed[j], w.tokens.rows[j]);
    }
  }

  /** The writes of an admin's disable, or of an enrolment's enable, up to the last. */
  lemma EndAndDropKeepsInv(w: World, jti: Jti, reason: string)
    requires Inv(w) && jti in w.tokens.signed
    ensures var claims := w.tokens.signed[jti];
            var ended := EndEverySession(w, claims.sub, reason);
            && Inv(ended) && Inv(DropToken(ended, jti))
            && (forall j :: j in ended.tokens.rows && ended.tokens.rows[j].user == claims.uid ==>
                  ended.tokens.rows[j].revoked.Some?)
  {
    var claims := w.tokens.signed[jti];
    EndingKeepsInv(w, claims.sub, "", reason);
    DropKeepsInv(EndEverySession(w, claims.sub, reason), jti);
    AllRowsEnded(w, claims.uid, reason);
  }

  lemma EnrolKeepsInv(w: World, jti: Jti, uid: int, writes: nat)
    requires Inv(w) && uid in w.users && jti in w.tokens.signed && w.tokens.signed[jti].Enrolment?
    ensures Inv(FinishEnabling(w, jti, uid, writes))
  {
    EndAndDropKeepsInv(w, jti, "two_factor_enabled");
    SaveKeepsInv(DropToken(EndEverySession(w, w.tokens.signed[jti].sub, "two_factor_enabled"), jti), uid, true, w.users[uid].secret);
  }

  lemma FinishEnablingKeepsInv(w: World, jti: Jti, uid: int, writes: nat)
    requires Inv(w) && uid in w.users && jti in w.tokens.signed && w.tokens.signed[jti].Access?
    ensures Inv(FinishEnabling(w, jti, uid, writes))
  {
    var claims := w.tokens.signed[jti];
    EndingKeepsInv(w, claims.sub, claims.fam, "two_factor_enabled");
    SaveKeepsInv(EndOtherSessions(w, claims.sub, claims.fam, "two_factor_enabled"), uid, true, w.users[uid].secret);
  }

  lemma EnableKeepsInv(w: World, jti: Jti, uid: int, ok: bool, matched: Option<int>, writes: nat, now: int)
    requires Inv(w) && InWindow(matched, now)
    ensures Inv(EnableTwoFactor(w, jti, uid, ok, matched, writes, now))
  {
    if MayEnable(w, jti, uid, ok, matched, now) && writes > 0 {
      var burnt := BurnStep(w, uid, matched.value, now);
      BurnKeepsInv(w, uid, matched.value, now);
      if w.tokens.signed[jti].Enrolment? {
        EnrolKeepsInv(burnt, jti, uid, writes - 1);
      } else {
        FinishEnablingKeepsInv(burnt, jti, uid, writes - 1);
      }
    }
  }

  /** An admin's second factor goes off only once every one of its rows is revoked. */
  lemma AdminDisablingKeepsInv(w: World, jti: Jti, uid: int, writes: nat)
    requires Inv(w) && uid in w.users && jti in w.tokens.signed && w.tokens.signed[jti].Access?
    requires w.tokens.signed[jti].uid == uid && w.users[uid].role == Admin
    ensures Inv(FinishDisabling(w, jti, uid, writes))
  {
    EndAndDropKeepsInv(w, jti, "two_factor_disabled");
    SaveKeepsInv(DropToken(EndEverySession(w, w.tokens.signed[jti].sub, "two_factor_disabled"), jti), uid, false, None);
  }

  lemma FinishDisablingKeepsInv(w: World, jti: Jti, uid: int, writes: nat)
    requires Inv(w) && uid in w.users && jti in w.tokens.signed && w.tokens.signed[jti].Access?
    requires w.users[uid].role != Admin
    ensures Inv(FinishDisabling(w, jti, uid, writes))
  {
    var claims := w.tokens.signed[jti];
    EndingKeepsInv(w, claims.sub, claims.fam, "two_factor_disabled");
    SaveKeepsInv(EndOtherSessions(w, claims.sub, claims.fam, "two_factor_disabled"), uid, false, None);
  }

  lemma DisableKeepsInv(w: World, jti: Jti, uid: int, ok: bool, matched: Option<int>, writes: nat, now: int)
    requires Inv(w) && InWindow(matched, now)
    ensures Inv(DisableTwoFactor(w, jti, uid, ok, matched, writes, now))
  {
    if MayDisable(w, jti, uid, ok, matched, now) && writes > 0 {
      var burnt := BurnStep(w, uid, matched.value, now);
      BurnKeepsInv(w, uid, matched.value, now);
      if w.users[uid].role == Admin {
        AdminDisablingKeepsInv(burnt, jti, uid, writes - 1);
      } else {
        FinishDisablingKeepsInv(burnt, jti, uid, writes - 1);
      }
    }
  }

  lemma SetupKeepsInv(w: World, jti: Jti, uid: int, ok: bool, secret: string, now: int)
    requires Inv(w)
    ensures Inv(SetupTwoFactor(w, jti, uid, ok, secret, now))
  {
  }

  lemma ServedKeepsInv(w: World, r: Request, now: int)
    requires Inv(w) && Sessions.Enabled(w, r, now)
    ensures Inv(Served(w, r, now))
  {
    match r
    case Registers(uid, client, ids) => RegisterKeepsInv(w, uid, client, ids, now);
    case LogsIn(uid, ok, client, ids) => LoginKeepsInv(w, uid, ok, client, ids, now);
    case AnswersCode(jti, matched, client, ids) => AnswerKeepsInv(w, jti, matched, client, ids, now);
    case AnswersPasskey(jti, asserted, advanced, client, ids) =>
      PasskeyKeepsInv(w, jti, asserted, advanced, client, ids, now);
    case Refreshes(jti, client, ids) => RefreshKeepsInv(w, jti, client, ids, now);
    case LogsOut(jti, refresh) => LogoutKeepsInv(w, jti, refresh, now);
    case SetsUp(jti, uid, ok, secret) => SetupKeepsInv(w, jti, uid, ok, secret, now);
    case Enables(jti, uid, ok, matched, writes) => EnableKeepsInv(w, jti, uid, ok, matched, writes, now);
    case Disables(jti, uid, ok, matched, writes) => DisableKeepsInv(w, jti, uid, ok, matched, writes, now);
    case ChangesRole(uid, role) => RoleKeepsInv(w, uid, role);
    case Sweeps => RevokingKeepsInv(w, SweepRevocations(w.tokens, now));
  }

  lemma RoleKeepsInv(w: World, uid: int, role: Role)
    requires Inv(w) && uid in w.users && w.users[uid].role != Admin && role != Admin
    ensures Inv(w.(users := w.users[uid := w.users[uid].(role := role)]))
  {
  }

  lemma {:induction false} RunKeepsInv(w: World, requests: seq<(Request, int)>)
    requires Inv(w)
    ensures Inv(Sessions.Run(w, requests))
    decreases |requests|
  {
    if requests != [] {
      var r, now := requests[0].0, requests[0].1;
      if Sessions.Enabled(w, r, now) {
        ServedKeepsInv(w, r, now);
        assert Inv(Next(w, r, now));
      }
      RunKeepsInv(Next(w, r, now), requests[1..]);
    }
  }

  /**
   The admin rule over whole runs: however requests follow one another, and wherever an
   enable or disable stops, an admin account without a second factor has no live refresh
   token.
   */
  lemma AdminRule(start: World, requests: seq<(Request, int)>, jti: Jti)
    requires Initial(start)
    requires var w := Sessions.Run(start, requests);
             jti in w.tokens.rows && w.tokens.rows[jti].user in w.users
    ensures var w := Sessions.Run(start, requests);
            var user := w.users[w.tokens.rows[jti].user];
            user.role == Admin && !user.twoFactor ==> w.tokens.rows[jti].revoked.Some?
  {
    RunKeepsInv(start, requests);
  }

  // ----- one-time codes -----

  /** The steps accepted between two instants, in the order they were accepted. */
  function StepsBetween(burns: seq<Burn>, t1: int, t2: int): seq<int> {
    if burns == [] then []
    else
      var n := |burns| - 1;
      StepsBetween(burns[..n], t1, t2) + if t1 <= burns[n].at <= t2 then [burns[n].step] else []
  }

  /** Strictly increasing from `lo` on, and at most `hi`. */
  ghost predicate Spread(steps: seq<int>, lo: int, hi: int) {
    forall i :: 0 <= i < |steps| ==> lo + i <= steps[i] <= hi
  }

  lemma {:induction false} StepsBetweenBounds(burns: seq<Burn>, t1: int, t2: int)
    requires Increasing(burns) && Windowed(burns) && t1 <= t2
    ensures Spread(StepsBetween(burns, t1, t2), StepAt(t1) - 1, StepAt(t2) + 1)
    ensures burns == [] ==> StepsBetween(burns, t1, t2) == []
    ensures burns != [] ==> Spread(StepsBetween(burns, t1, t2), StepAt(t1) - 1, burns[|burns| - 1].step)
    decreases |burns|
  {
    if burns != [] {
      var n := |burns| - 1;
      var before := StepsBetween(burns[..n], t1, t2);
      StepsBetweenBounds(burns[..n], t1, t2);
      assert n > 0 ==> burns[..n][n - 1].step < burns[n].step;
      if t1 <= burns[n].at <= t2 {
        assert StepAt(t1) <= StepAt(burns[n].at) <= StepAt(t2);
        assert InWindow(Some(burns[n].step), burns[n].at);
        assert before != [] ==> StepAt(t1) - 1 + (|before| - 1) <= before[|before| - 1] < burns[n].step;
      }
    }
  }

  /**
   One-time codes are spent in order: an account's accepted steps strictly increase over any
   run, so between two instants at most one code per step and three more are accepted.
   */
  lemma CodesBurnInOrder(start: World, requests: seq<(Request, int)>, uid: int, t1: int, t2: int)
    requires Initial(start) && t1 <= t2
    ensures var burns := Burns(Sessions.Run(start, requests), uid);
            && Increasing(burns)
            && |StepsBetween(burns, t1, t2)| <= StepAt(t2) - StepAt(t1) + 3
  {
    RunKeepsInv(start, requests);
    var burns := Burns(Sessions.Run(start, requests), uid);
    StepsBetweenBounds(burns, t1, t2);
    var steps := StepsBetween(burns, t1, t2);
    if steps != [] {
      assert StepAt(t1) - 1 + (|steps| - 1) <= steps[|steps| - 1] <= StepAt(t2) + 1;
    } else {
      assert StepAt(t1) <= StepAt(t2);
    }
  }

  // ----- another client's renewal -----

  /**
   In every reachable state the check before the lock and the check inside it agree: a
   renewal by another client changes nothing at all, not even for a token already spent, and
   one that passes the first check is never stopped by the second.
   */
  lemma MismatchChangesNothing(start: World, requests: seq<(Request, int)>, jti: Jti, client: RequestClient, ids: Ids, now: int)
    requires Initial(start) && jti in Sessions.Run(start, requests).tokens.rows
    ensures var w := Sessions.Run(start, requests);
            var renewal := RefreshSession(w, jti, client, ids, now);
            && (SessionClientDecision(w.tokens.rows[jti].client, client) == Mismatch ==> renewal.0 == w)
            && !(renewal.1.Outcome? && renewal.1.rotation.WrongClient?)
  {
    RunKeepsInv(start, requests);
    var w := Sessions.Run(start, requests);
    assert Matches(w.tokens.signed[jti], w.tokens.rows[jti]);
  }
}

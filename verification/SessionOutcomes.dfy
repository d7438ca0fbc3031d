/** What each sign-in request leaves behind: the tokens it signs, the sessions it ends, the second factor it saves. */
module SessionOutcomes {
  import opened Accounts
  import opened Common
  import SessionFamilies
  import opened Sessions
  import T = Tokens
  import B = TokenBinding
  import TokenFamilies

  /** The account's principal, or the one drawn for it. */
  function PrincipalFor(w: World, uid: int, drawn: string): string {
    if uid in w.principals then w.principals[uid] else drawn
  }

  function NameOf(client: T.RequestClient): Option<string> {
    match client
    case Named(name) => Some(name)
    case Unnamed => None
  }

  /** A session of the account started at `now`: both tokens and the row, and no other token touched. */
  ghost predicate SessionStarted(w: World, w': World, uid: int, client: T.RequestClient, ids: Ids, now: int) {
    B.Minted(w.tokens, w'.tokens, PrincipalFor(w, uid, ids.principal), uid, ids.family, NameOf(client), ids.access, ids.refresh, now)
  }

  /** One token was signed, and nothing else happened to tokens, rows or accounts. */
  ghost predicate OnlySigned(w: World, w': World, jti: T.Jti, token: T.Token) {
    && w'.tokens == w.tokens.(signed := w.tokens.signed[jti := token])
    && w'.users == w.users && w'.burned == w.burned
  }

  // ----- starting -----

  lemma StartOutcome(w: World, uid: int, client: T.RequestClient, ids: Ids, now: int)
    requires uid in w.users && FreshIds(w, ids)
    ensures var w' := StartSession(w, uid, client, ids, now);
            && w'.users == w.users && w'.burned == w.burned && w'.tokens.tombstones == w.tokens.tombstones
            && (w.users[uid].role == Admin && !w.users[uid].twoFactor ==> w' == w)
            && (!(w.users[uid].role == Admin && !w.users[uid].twoFactor) ==>
                  && SessionStarted(w, w', uid, client, ids, now)
                  && uid in w'.principals && w'.principals[uid] == PrincipalFor(w, uid, ids.principal))
  {
    B.MintSigns(w.tokens, PrincipalFor(w, uid, ids.principal), uid, ids.family, NameOf(client), ids.access, ids.refresh, now);
  }

  /** A new account is a customer without a second factor, and has a session. */
  lemma RegisterOutcome(w: World, uid: int, client: T.RequestClient, ids: Ids, now: int)
    requires uid !in w.users && FreshIds(w, ids)
    ensures var w' := Register(w, uid, client, ids, now);
            && w'.users == w.users[uid := User(Customer, false, None, None)]
            && SessionStarted(w, w', uid, client, ids, now)
  {
    StartOutcome(w.(users := w.users[uid := User(Customer, false, None, None)]), uid, client, ids, now);
  }

  /**
   A wrong password does nothing. A right one is answered with a challenge of five minutes when
   the second factor is on, with an enrolment token of ten minutes for an admin without one, and
   with a session for everybody else; in each case for this account and no other.
   */
  lemma LoginOutcome(w: World, uid: int, passwordOk: bool, client: T.RequestClient, ids: Ids, now: int)
    requires FreshIds(w, ids)
    ensures var w' := Login(w, uid, passwordOk, client, ids, now);
            && (!passwordOk || uid !in w.users ==> w' == w)
            && (passwordOk && uid in w.users ==>
                  var user, principal := w.users[uid], PrincipalFor(w, uid, ids.principal);
                  if user.twoFactor then
                    OnlySigned(w, w', ids.access, T.Challenge(principal, uid, now / 1000 + 300))
                  else if user.role == Admin then
                    OnlySigned(w, w', ids.access, T.Enrolment(principal, uid, now / 1000 + 600, NameOf(client)))
                  else
                    SessionStarted(w, w', uid, client, ids, now) && w'.users == w.users)
  {
    if uid in w.users {
      StartOutcome(w, uid, client, ids, now);
    }
  }

  // ----- what a token opens -----

  /** Signed, not revoked, and before its `exp` to the millisecond. */
  predicate Live(w: World, jti: T.Jti, now: int) {
    jti in w.tokens.signed && jti !in w.tokens.tombstones && now < w.tokens.signed[jti].exp * 1000
  }

  lemma OpensExactly(w: World, jti: T.Jti, uid: int, now: int)
    ensures OpenChallenge(w, jti, now) <==>
              && Live(w, jti, now) && w.tokens.signed[jti].Challenge? && w.tokens.signed[jti].uid in w.users
              && w.users[w.tokens.signed[jti].uid].twoFactor && w.users[w.tokens.signed[jti].uid].secret.Some?
    ensures SessionOf(w, jti, uid, now) <==>
              && Live(w, jti, now) && (w.tokens.signed[jti].Access? || w.tokens.signed[jti].Enrolment?)
              && w.tokens.signed[jti].uid == uid && uid in w.users
  {
    if jti in w.tokens.signed {
      B.GoodUntil(w.tokens, jti, now);
    }
  }

  // ----- answering a challenge -----

  /** The world after a challenge was consumed and, for a code, its step burnt. */
  function AfterAnswer(w: World, jti: T.Jti, step: Option<int>, now: int): World
    requires jti in w.tokens.signed && (step.Some? ==> w.tokens.signed[jti].uid in w.users)
  {
    var uid := w.tokens.signed[jti].uid;
    var consumed := w.(tokens := w.tokens.(tombstones := w.tokens.tombstones[jti := w.tokens.signed[jti].exp * 1000]));
    match step
    case None => consumed
    case Some(k) =>
      consumed.(users := w.users[uid := w.users[uid].(lastStep := Some(k))], burned := w.burned[uid := Burns(w, uid) + [Burn(now, k)]])
  }

  /**
   A code starts a session exactly on an open challenge and a step later than every one before.
   The challenge is spent by any right code, the step only by one that starts a session.
   */
  lemma CodeOutcome(w: World, jti: T.Jti, matched: Option<int>, client: T.RequestClient, ids: Ids, now: int)
    requires FreshIds(w, ids)
    ensures var w' := VerifyTwoFactor(w, jti, matched, client, ids, now);
            if !OpenChallenge(w, jti, now) || matched.None? then w' == w
            else
              Live(w, jti, now) && w.tokens.signed[jti].Challenge? &&
              var uid := w.tokens.signed[jti].uid;
              if w.users[uid].lastStep.Some? && matched.value <= w.users[uid].lastStep.value then
                w' == AfterAnswer(w, jti, None, now)
              else
                var after := AfterAnswer(w, jti, matched, now);
                SessionStarted(after, w', uid, client, ids, now) && w'.users == after.users && w'.burned == after.burned
                && w'.tokens.tombstones == after.tokens.tombstones
  {
    OpensExactly(w, jti, 0, now);
    if OpenChallenge(w, jti, now) && matched.Some? {
      var uid := w.tokens.signed[jti].uid;
      if StepIsFresh(w.users[uid], matched.value) {
        StartOutcome(AfterAnswer(w, jti, matched, now), uid, client, ids, now);
      }
    }
  }

  /** A passkey starts one exactly on an open challenge, asserted right, its counter advanced. */
  lemma PasskeyOutcome(w: World, jti: T.Jti, asserted: bool, advanced: bool, client: T.RequestClient, ids: Ids, now: int)
    requires FreshIds(w, ids)
    ensures var w' := VerifyPasskey(w, jti, asserted, advanced, client, ids, now);
            if !OpenChallenge(w, jti, now) || !asserted then w' == w
            else if !advanced then w' == AfterAnswer(w, jti, None, now)
            else
              var after := AfterAnswer(w, jti, None, now);
              SessionStarted(after, w', w.tokens.signed[jti].uid, client, ids, now) && w'.users == w.users
              && w'.tokens.tombstones == after.tokens.tombstones
  {
    if OpenChallenge(w, jti, now) && asserted && advanced {
      StartOutcome(AfterAnswer(w, jti, None, now), w.tokens.signed[jti].uid, client, ids, now);
    }
  }

  /** The two tokens of a session of the account were signed, and no other. */
  ghost predicate SignsPair(signed: map<T.Jti, T.Token>, signed': map<T.Jti, T.Token>, uid: int, ids: Ids) {
    && ids.access in signed' && signed'[ids.access].Access? && signed'[ids.access].uid == uid
    && ids.refresh in signed' && signed'[ids.refresh].Refresh? && signed'[ids.refresh].uid == uid
    && (forall j :: j in signed ==> j in signed' && signed'[j] == signed[j])
    && (forall j :: j in signed' ==> j in signed || j == ids.access || j == ids.refresh)
  }

  lemma CodeSigns(w: World, jti: T.Jti, matched: Option<int>, client: T.RequestClient, ids: Ids, now: int)
    requires FreshIds(w, ids)
    ensures var signed' := VerifyTwoFactor(w, jti, matched, client, ids, now).tokens.signed;
            if OpenChallenge(w, jti, now) && matched.Some? && LaterStep(w.users[w.tokens.signed[jti].uid], matched.value)
            then SignsPair(w.tokens.signed, signed', w.tokens.signed[jti].uid, ids)
            else signed' == w.tokens.signed
  {
    CodeOutcome(w, jti, matched, client, ids, now);
  }

  lemma PasskeySigns(w: World, jti: T.Jti, asserted: bool, advanced: bool, client: T.RequestClient, ids: Ids, now: int)
    requires FreshIds(w, ids)
    ensures var signed' := VerifyPasskey(w, jti, asserted, advanced, client, ids, now).tokens.signed;
            if OpenChallenge(w, jti, now) && asserted && advanced
            then SignsPair(w.tokens.signed, signed', w.tokens.signed[jti].uid, ids)
            else signed' == w.tokens.signed
  {
    PasskeyOutcome(w, jti, asserted, advanced, client, ids, now);
  }

  // ----- ending sessions -----

  /** Exactly the rows that `ended` names get this revocation, if they had none. */
  ghost predicate RowsEnded(s: T.Store, s': T.Store, ended: T.Row -> bool, reason: string) {
    && s'.signed == s.signed && s'.rows.Keys == s.rows.Keys
    && forall j :: j in s.rows ==>
         s'.rows[j] == if ended(s.rows[j]) && s.rows[j].revoked.None? then s.rows[j].(revoked := Some(reason)) else s.rows[j]
  }

  /** A logout ends the named family, or every family of the principal, and the access token; a foreign token ends nothing. */
  lemma LogoutOutcome(w: World, access: T.Jti, refresh: Option<T.Jti>, now: int)
    requires T.Accepted(w.tokens, access, now) && w.tokens.signed[access].Access?
    ensures var w', claims := Logout(w, access, refresh, now), w.tokens.signed[access];
            && w'.users == w.users
            && (refresh.None? ==>
                  && RowsEnded(w.tokens, w'.tokens, (row: T.Row) => row.principal == claims.sub, "logout")
                  && access in w'.tokens.tombstones)
            && (refresh.Some? ==>
                  var named := refresh.value;
                  if named in w.tokens.signed && w.tokens.signed[named].Refresh? && now < w.tokens.signed[named].exp * 1000
                     && w.tokens.signed[named].sub == claims.sub
                  then
                    && RowsEnded(w.tokens, w'.tokens, (row: T.Row) => row.family == w.tokens.signed[named].fam, "logout")
                    && access in w'.tokens.tombstones
                  else w' == w)
  {
  }

  // ----- the second factor -----

  /** Every account but this one is as it was, and this one but for its second factor and last step. */
  ghost predicate OnlyFactorOf(w: World, w': World, uid: int)
    requires uid in w.users
  {
    && w'.users.Keys == w.users.Keys
    && (forall u :: u in w.users && u != uid ==> w'.users[u] == w.users[u])
    && w'.users[uid].role == w.users[uid].role
  }

  /** A set-up stores the new secret, the second factor still off. */
  lemma SetupOutcome(w: World, jti: T.Jti, uid: int, passwordOk: bool, secret: string, now: int)
    requires SessionOf(w, jti, uid, now) && (w.tokens.signed[jti].Access? ==> passwordOk) && !w.users[uid].twoFactor
    ensures var w' := SetupTwoFactor(w, jti, uid, passwordOk, secret, now);
            && OnlyFactorOf(w, w', uid) && !w'.users[uid].twoFactor && w'.users[uid].secret == Some(secret)
            && w'.users[uid].lastStep == w.users[uid].lastStep && w'.tokens == w.tokens
  {
  }

  /** The sessions a switch ends: from a session all others of the principal, in the other two cases all. */
  ghost predicate SwitchEnds(w: World, w': World, jti: T.Jti, all: bool, reason: string)
    requires jti in w.tokens.signed && (w.tokens.signed[jti].Access? || all)
  {
    var claims := w.tokens.signed[jti];
    if all then
      RowsEnded(w.tokens, w'.tokens, (row: T.Row) => row.principal == claims.sub, reason) && jti in w'.tokens.tombstones
    else
      RowsEnded(w.tokens, w'.tokens, (row: T.Row) => row.principal == claims.sub && row.family != claims.fam, reason)
  }

  lemma EnrolmentOutcome(w: World, jti: T.Jti, uid: int, writes: nat)
    requires uid in w.users && jti in w.tokens.signed && w.tokens.signed[jti].Enrolment?
    ensures var w' := FinishEnabling(w, jti, uid, writes);
            && OnlyFactorOf(w, w', uid) && w'.users[uid].lastStep == w.users[uid].lastStep && w'.burned == w.burned
            && w'.users[uid].secret == w.users[uid].secret
            && (writes >= 3 ==> w'.users[uid].twoFactor)
            && (writes >= 3 || w'.users[uid].twoFactor != w.users[uid].twoFactor ==>
                  SwitchEnds(w, w', jti, true, "two_factor_enabled"))
  {
  }

  lemma FromSessionOutcome(w: World, jti: T.Jti, uid: int, writes: nat)
    requires uid in w.users && jti in w.tokens.signed && w.tokens.signed[jti].Access?
    ensures var w' := FinishEnabling(w, jti, uid, writes);
            && OnlyFactorOf(w, w', uid) && w'.users[uid].lastStep == w.users[uid].lastStep && w'.burned == w.burned
            && w'.users[uid].secret == w.users[uid].secret
            && (writes >= 2 ==> w'.users[uid].twoFactor)
            && (writes >= 2 || w'.users[uid].twoFactor != w.users[uid].twoFactor ==>
                  SwitchEnds(w, w', jti, false, "two_factor_enabled"))
  {
  }

  /**
   Turning the second factor on, all writes done, leaves it on with the secret the code was checked
   against and the code's step spent, and ends the other sessions (from an enrolment token: all of
   them, and the token). Stopped at any write, the factor is on only if those sessions have ended.
   */
  lemma EnableOutcome(w: World, jti: T.Jti, uid: int, passwordOk: bool, matched: Option<int>, writes: nat, now: int)
    requires MayEnable(w, jti, uid, passwordOk, matched, now) && writes >= 1
    ensures var w' := EnableTwoFactor(w, jti, uid, passwordOk, matched, writes, now);
            && OnlyFactorOf(w, w', uid) && w'.users[uid].lastStep == matched && w'.users[uid].secret == w.users[uid].secret
            && (writes >= 4 ==> w'.users[uid].twoFactor)
            && (writes >= 4 || w'.users[uid].twoFactor != w.users[uid].twoFactor ==>
                  SwitchEnds(w, w', jti, w.tokens.signed[jti].Enrolment?, "two_factor_enabled"))
  {
    var burnt := BurnStep(w, uid, matched.value, now);
    if w.tokens.signed[jti].Enrolment? {
      EnrolmentOutcome(burnt, jti, uid, writes - 1);
    } else {
      FromSessionOutcome(burnt, jti, uid, writes - 1);
    }
  }

  lemma AdminDisablingOutcome(w: World, jti: T.Jti, uid: int, writes: nat)
    requires uid in w.users && jti in w.tokens.signed && w.tokens.signed[jti].Access? && w.users[uid].role == Admin
    ensures var w' := FinishDisabling(w, jti, uid, writes);
            && OnlyFactorOf(w, w', uid) && w'.users[uid].lastStep == w.users[uid].lastStep && w'.burned == w.burned
            && (writes >= 3 ==> !w'.users[uid].twoFactor && w'.users[uid].secret.None?)
            && (writes >= 3 || w'.users[uid] != w.users[uid] ==>
                  && !w'.users[uid].twoFactor && w'.users[uid].secret.None?
                  && SwitchEnds(w, w', jti, true, "two_factor_disabled"))
  {
  }

  lemma OtherDisablingOutcome(w: World, jti: T.Jti, uid: int, writes: nat)
    requires uid in w.users && jti in w.tokens.signed && w.tokens.signed[jti].Access? && w.users[uid].role != Admin
    ensures var w' := FinishDisabling(w, jti, uid, writes);
            && OnlyFactorOf(w, w', uid) && w'.users[uid].lastStep == w.users[uid].lastStep && w'.burned == w.burned
            && (writes >= 2 ==> !w'.users[uid].twoFactor && w'.users[uid].secret.None?)
            && (writes >= 2 || w'.users[uid] != w.users[uid] ==>
                  && !w'.users[uid].twoFactor && w'.users[uid].secret.None?
                  && SwitchEnds(w, w', jti, false, "two_factor_disabled"))
  {
  }

  /**
   Turning it off, all writes done, leaves it off with no secret and ends the other sessions (an
   admin's: all of them, and the access token). Stopped earlier it is as it was but for the spent step.
   */
  lemma DisableOutcome(w: World, jti: T.Jti, uid: int, passwordOk: bool, matched: Option<int>, writes: nat, now: int)
    requires MayDisable(w, jti, uid, passwordOk, matched, now) && writes >= 1
    ensures var w' := DisableTwoFactor(w, jti, uid, passwordOk, matched, writes, now);
            && OnlyFactorOf(w, w', uid) && w'.users[uid].lastStep == matched
            && (writes >= 4 ==> !w'.users[uid].twoFactor && w'.users[uid].secret.None?)
            && (writes >= 4 || w'.users[uid] != w.users[uid].(lastStep := matched) ==>
                  && !w'.users[uid].twoFactor && w'.users[uid].secret.None?
                  && SwitchEnds(w, w', jti, w.users[uid].role == Admin, "two_factor_disabled"))
  {
    var burnt := BurnStep(w, uid, matched.value, now);
    if w.users[uid].role == Admin {
      AdminDisablingOutcome(burnt, jti, uid, writes - 1);
    } else {
      OtherDisablingOutcome(burnt, jti, uid, writes - 1);
    }
  }

  /** The step was never accepted for the account, nor any later one. */
  predicate LaterStep(user: User, step: int) {
    user.lastStep.None? || user.lastStep.value < step
  }

  /**
   A switch, or a set-up, does anything at all only for a live token of the account itself, with the
   right password from a session, and (a switch) a right code of a step never accepted before.
   */
  lemma SwitchNeedsProof(w: World, jti: T.Jti, uid: int, passwordOk: bool, matched: Option<int>, secret: string, writes: nat, now: int)
    ensures EnableTwoFactor(w, jti, uid, passwordOk, matched, writes, now) != w <==>
              && Live(w, jti, now) && w.tokens.signed[jti].uid == uid && uid in w.users
              && (w.tokens.signed[jti].Enrolment? || (w.tokens.signed[jti].Access? && passwordOk))
              && w.users[uid].secret.Some? && matched.Some? && LaterStep(w.users[uid], matched.value) && writes > 0
    ensures DisableTwoFactor(w, jti, uid, passwordOk, matched, writes, now) != w <==>
              && Live(w, jti, now) && w.tokens.signed[jti].uid == uid && uid in w.users
              && w.tokens.signed[jti].Access? && passwordOk && w.users[uid].twoFactor
              && w.users[uid].secret.Some? && matched.Some? && LaterStep(w.users[uid], matched.value) && writes > 0
    ensures SetupTwoFactor(w, jti, uid, passwordOk, secret, now) != w ==>
              && Live(w, jti, now) && w.tokens.signed[jti].uid == uid && uid in w.users && !w.users[uid].twoFactor
              && (w.tokens.signed[jti].Enrolment? || (w.tokens.signed[jti].Access? && passwordOk))
  {
    OpensExactly(w, jti, uid, now);
    if MayEnable(w, jti, uid, passwordOk, matched, now) && writes > 0 {
      EnableOutcome(w, jti, uid, passwordOk, matched, writes, now);
    }
    if MayDisable(w, jti, uid, passwordOk, matched, now) && writes > 0 {
      DisableOutcome(w, jti, uid, passwordOk, matched, writes, now);
    }
  }

  /** Switched off, the account's next right password is no longer answered with a challenge. */
  lemma DisabledSignsInWithoutCode(w: World, jti: T.Jti, uid: int, matched: Option<int>, now: int,
                                   client: T.RequestClient, ids: Ids, later: int)
    requires MayDisable(w, jti, uid, true, matched, now)
    requires FreshIds(DisableTwoFactor(w, jti, uid, true, matched, 4, now), ids)
    ensures var off := DisableTwoFactor(w, jti, uid, true, matched, 4, now);
            var w' := Login(off, uid, true, client, ids, later);
            if w.users[uid].role == Admin then
              OnlySigned(off, w', ids.access, T.Enrolment(PrincipalFor(off, uid, ids.principal), uid, later / 1000 + 600, NameOf(client)))
            else SessionStarted(off, w', uid, client, ids, later)
  {
    DisableOutcome(w, jti, uid, true, matched, 4, now);
    LoginOutcome(DisableTwoFactor(w, jti, uid, true, matched, 4, now), uid, true, client, ids, later);
  }

  /**
   Switched on, the account's next right password is answered with a challenge, and within five
   minutes a code of a later step, though of no earlier one, answers it with a session.
   */
  lemma EnabledSignsInWithCode(w: World, jti: T.Jti, uid: int, matched: Option<int>, now: int,
                               client: T.RequestClient, ids: Ids, later: int, step: int, more: Ids, last: int)
    requires MayEnable(w, jti, uid, true, matched, now) && ids.access !in w.tokens.tombstones
    requires var on := EnableTwoFactor(w, jti, uid, true, matched, 4, now);
             && FreshIds(on, ids) && ids.access != jti
             && FreshIds(Login(on, uid, true, client, ids, later), more)
    requires last < (later / 1000 + 300) * 1000
    ensures var on := EnableTwoFactor(w, jti, uid, true, matched, 4, now);
            var asked := Login(on, uid, true, client, ids, later);
            var answered := VerifyTwoFactor(asked, ids.access, Some(step), client, more, last);
            && OnlySigned(on, asked, ids.access, T.Challenge(PrincipalFor(on, uid, ids.principal), uid, later / 1000 + 300))
            && (step > matched.value ==>
                  SessionStarted(AfterAnswer(asked, ids.access, Some(step), last), answered, uid, client, more, last))
            && (step <= matched.value ==> answered.tokens.signed == asked.tokens.signed && answered.tokens.rows == asked.tokens.rows)
  {
    var on := EnableTwoFactor(w, jti, uid, true, matched, 4, now);
    EnableOutcome(w, jti, uid, true, matched, 4, now);
    LoginOutcome(on, uid, true, client, ids, later);
    var asked := Login(on, uid, true, client, ids, later);
    B.GoodUntil(asked.tokens, ids.access, last);
    EnablingTombstones(w, jti, uid, matched, now);
    CodeOutcome(asked, ids.access, Some(step), client, more, last);
  }

  lemma EnablingTombstones(w: World, jti: T.Jti, uid: int, matched: Option<int>, now: int)
    requires MayEnable(w, jti, uid, true, matched, now)
    ensures EnableTwoFactor(w, jti, uid, true, matched, 4, now).tokens.tombstones.Keys <= w.tokens.tombstones.Keys + {jti}
  {
  }

  // ----- renewing -----

  predicate Unprotected(user: User) {
    user.role == Admin && !user.twoFactor
  }

  /** The refresh token may be renewed by this client at `now`, told from its row and its account. */
  predicate Renewable(w: World, jti: T.Jti, client: T.RequestClient, now: int) {
    && jti in w.tokens.rows && !w.tokens.rows[jti].used && w.tokens.rows[jti].revoked.None?
    && now < w.tokens.rows[jti].expiresAt && B.IsClientOf(w.tokens.rows[jti].client, client)
    && w.tokens.rows[jti].user in w.users && !Unprotected(w.users[w.tokens.rows[jti].user])
  }

  lemma NoRowNoRenewal(w: World, jti: T.Jti, client: T.RequestClient, ids: Ids, now: int)
    requires T.SignedInv(w.tokens) && FreshIds(w, ids) && jti !in w.tokens.rows
    ensures var renewal := RefreshSession(w, jti, client, ids, now);
            !(renewal.1.Outcome? && renewal.1.rotation.Rotated?)
  {
    if jti in w.tokens.signed {
      B.RenewsExactly(w.tokens, jti, w.tokens.signed[jti].uid, client, ids.access, ids.refresh, now);
    }
  }

  lemma RowRenewal(w: World, jti: T.Jti, client: T.RequestClient, ids: Ids, now: int)
    requires T.SignedInv(w.tokens) && FreshIds(w, ids) && jti in w.tokens.rows
    ensures jti in w.tokens.signed && w.tokens.signed[jti].uid == w.tokens.rows[jti].user
    ensures var renewal := RefreshSession(w, jti, client, ids, now);
            (renewal.1.Outcome? && renewal.1.rotation.Rotated?) <==> Renewable(w, jti, client, now)
    ensures Renewable(w, jti, client, now) ==>
              var renewal := RefreshSession(w, jti, client, ids, now);
              var rotated := T.Rotate(w.tokens, jti, w.tokens.signed[jti].uid, client, ids.access, ids.refresh, now);
              && rotated.1.Rotated? && renewal.0.tokens == rotated.0 && renewal.0.users == w.users && renewal.1 == Outcome(rotated.1)
  {
    var row := w.tokens.rows[jti];
    assert T.Matches(w.tokens.signed[jti], row);
    B.GoodUntil(w.tokens, jti, now);
    B.DecisionExactly(row.client, client);
    B.RenewsExactly(w.tokens, jti, w.tokens.signed[jti].uid, client, ids.access, ids.refresh, now);
  }

  /**
   In every reachable world a renewal succeeds exactly when the token's row is unspent, unrevoked
   and unexpired, the client is the session's or its first, and the account is no admin without a
   second factor; then it signs two tokens of the same family and account for the bound client.
   */
  lemma RenewalOutcome(w: World, jti: T.Jti, client: T.RequestClient, ids: Ids, now: int)
    requires T.SignedInv(w.tokens) && FreshIds(w, ids)
    ensures var renewal := RefreshSession(w, jti, client, ids, now);
            && (Renewable(w, jti, client, now) <==> renewal.1.Outcome? && renewal.1.rotation.Rotated?)
            && (Renewable(w, jti, client, now) ==>
                  var row := w.tokens.rows[jti];
                  && B.Minted(w.tokens, renewal.0.tokens, row.principal, row.user, row.family,
                              B.BoundClient(row.client, client), ids.access, ids.refresh, now)
                  && (renewal.1.rotation.bound <==> row.client.None? && client.Named?)
                  && renewal.0.users == w.users)
  {
    if jti in w.tokens.rows {
      RowRenewal(w, jti, client, ids, now);
      if Renewable(w, jti, client, now) {
        assert T.Matches(w.tokens.signed[jti], w.tokens.rows[jti]);
        B.RenewalBinds(w.tokens, jti, w.tokens.signed[jti].uid, client, ids.access, ids.refresh, now);
      }
    } else {
      NoRowNoRenewal(w, jti, client, ids, now);
    }
  }

  /** An admin without a second factor loses the session it tries to renew. */
  lemma UnprotectedRenewalEnds(w: World, jti: T.Jti, client: T.RequestClient, ids: Ids, now: int)
    requires jti in w.tokens.signed && w.tokens.signed[jti].Refresh? && now < w.tokens.signed[jti].exp * 1000
    requires B.IsClientOf(w.tokens.signed[jti].azp, client)
    requires w.tokens.signed[jti].uid in w.users && Unprotected(w.users[w.tokens.signed[jti].uid])
    ensures var renewal := RefreshSession(w, jti, client, ids, now);
            && renewal.1 == TwoFactorRequired
            && RowsEnded(w.tokens, renewal.0.tokens, (row: T.Row) => row.family == w.tokens.signed[jti].fam, "two_factor_required")
  {
    B.DecisionExactly(w.tokens.signed[jti].azp, client);
  }

  lemma RenewalIsTokenStep(w: World, jti: T.Jti, client: T.RequestClient, ids: Ids, now: int)
    requires FreshIds(w, ids) && Renewable(w, jti, client, now) && T.SignedInv(w.tokens)
    ensures jti in w.tokens.signed && w.tokens.rows[jti].user == w.tokens.signed[jti].uid
    ensures var uid := w.tokens.signed[jti].uid;
            RefreshSession(w, jti, client, ids, now).0.tokens == T.Rotate(w.tokens, jti, uid, client, ids.access, ids.refresh, now).0
            && T.Rotate(w.tokens, jti, uid, client, ids.access, ids.refresh, now).1.Rotated?
  {
    RowRenewal(w, jti, client, ids, now);
  }

  /**
   A session belongs to the first client that named itself: once a named client has renewed it,
   over every further run of requests no other client renews it, and one that presents its unspent
   token is told of the mismatch and changes nothing.
   */
  lemma SessionBelongsToClient(start: World, before: seq<(Request, int)>, jti: T.Jti, name: string, ids: Ids, now: int,
                               after: seq<(Request, int)>, other: T.Jti, client: T.RequestClient, more: Ids, later: int)
    requires Initial(start)
    requires var w := Sessions.Run(start, before);
             && Enabled(w, Refreshes(jti, T.Named(name), ids), now) && Renewable(w, jti, T.Named(name), now)
    requires var w' := Sessions.Run(Next(Sessions.Run(start, before), Refreshes(jti, T.Named(name), ids), now), after);
             && other in w'.tokens.rows && client != T.Named(name) && FreshIds(w', more)
             && w'.tokens.rows[other].family == Sessions.Run(start, before).tokens.rows[jti].family
    ensures var w' := Sessions.Run(Next(Sessions.Run(start, before), Refreshes(jti, T.Named(name), ids), now), after);
            var renewal := RefreshSession(w', other, client, more, later);
            && !Renewable(w', other, client, later)
            && (!w'.tokens.rows[other].used && later < w'.tokens.rows[other].expiresAt ==>
                  renewal.0 == w' && renewal.1 == ClientMismatch)
  {
    var w := Sessions.Run(start, before);
    var family := w.tokens.rows[jti].family;
    SessionFamilies.RunInv(start, before);
    RenewalIsTokenStep(w, jti, T.Named(name), ids, now);
    B.NamedRenewalBinds(w.tokens, jti, w.tokens.signed[jti].uid, name, ids.access, ids.refresh, now);
    var renewed := Next(w, Refreshes(jti, T.Named(name), ids), now);
    TokenFamilies.RotatedKeepsInv(w.tokens, jti, w.tokens.signed[jti].uid, T.Named(name), ids.access, ids.refresh, now);
    BoundOverRequests(renewed, after, family, name);
    BoundRefusesOthers(Sessions.Run(renewed, after), family, name, other, client, more, later);
  }

  lemma BoundOverRequests(w: World, requests: seq<(Request, int)>, family: T.Family, name: string)
    requires T.Inv(w.tokens) && B.BoundTo(w.tokens, family, name)
    ensures B.BoundTo(Sessions.Run(w, requests).tokens, family, name) && T.Inv(Sessions.Run(w, requests).tokens)
  {
    SessionFamilies.RequestsAreTokenOps(w, requests);
    B.BoundStays(w.tokens, SessionFamilies.TokenOps(w, requests), family, name);
    TokenFamilies.RunKeepsInv(w.tokens, SessionFamilies.TokenOps(w, requests));
  }

  lemma BoundRefusesOthers(w: World, family: T.Family, name: string, jti: T.Jti, client: T.RequestClient, ids: Ids, now: int)
    requires T.SignedInv(w.tokens) && B.BoundTo(w.tokens, family, name)
    requires jti in w.tokens.rows && w.tokens.rows[jti].family == family && client != T.Named(name)
    ensures !Renewable(w, jti, client, now)
    ensures !w.tokens.rows[jti].used && now < w.tokens.rows[jti].expiresAt ==>
              RefreshSession(w, jti, client, ids, now) == (w, ClientMismatch)
  {
    var row := w.tokens.rows[jti];
    assert T.Matches(w.tokens.signed[jti], row);
    B.GoodUntil(w.tokens, jti, now);
    B.DecisionExactly(row.client, client);
  }

  // ----- what a request does not do -----

  /** A renewal that fails signs nothing. */
  lemma RefusedRenewal(w: World, jti: T.Jti, client: T.RequestClient, ids: Ids, now: int)
    requires var renewal := RefreshSession(w, jti, client, ids, now).1;
             !(renewal.Outcome? && renewal.rotation.Rotated?)
    ensures RefreshSession(w, jti, client, ids, now).0.tokens.signed == w.tokens.signed
  {
    if jti in w.tokens.signed {
      var uid := w.tokens.signed[jti].uid;
      if !T.Rotate(w.tokens, jti, uid, client, ids.access, ids.refresh, now).1.Rotated? {
        TokenFamilies.RefusedRotation(w.tokens, jti, uid, client, ids.access, ids.refresh, now);
      }
    }
  }

  lemma RenewalSigns(w: World, jti: T.Jti, client: T.RequestClient, ids: Ids, now: int)
    requires T.SignedInv(w.tokens) && FreshIds(w, ids)
    ensures var signed' := RefreshSession(w, jti, client, ids, now).0.tokens.signed;
            if Renewable(w, jti, client, now)
            then SignsPair(w.tokens.signed, signed', w.tokens.rows[jti].user, ids)
            else signed' == w.tokens.signed
  {
    RenewalOutcome(w, jti, client, ids, now);
    if !Renewable(w, jti, client, now) {
      RefusedRenewal(w, jti, client, ids, now);
    }
  }

  predicate Ending(r: Request) {
    r.LogsOut? || r.SetsUp? || r.Enables? || r.Disables? || r.ChangesRole? || r.Sweeps?
  }

  lemma EnablingSignsNothing(w: World, r: Request, now: int)
    requires r.Enables?
    ensures Served(w, r, now).tokens.signed == w.tokens.signed
  {
  }

  lemma DisablingSignsNothing(w: World, r: Request, now: int)
    requires r.Disables?
    ensures Served(w, r, now).tokens.signed == w.tokens.signed
  {
  }

  /** Neither a logout, nor a change of the second factor or the role, nor a sweep signs a token. */
  lemma EndingSignsNothing(w: World, r: Request, now: int)
    requires Ending(r)
    ensures Next(w, r, now).tokens.signed == w.tokens.signed
  {
    if r.Enables? {
      EnablingSignsNothing(w, r, now);
    } else if r.Disables? {
      DisablingSignsNothing(w, r, now);
    }
  }

  lemma SwitchKeepsAccounts(w: World, r: Request, now: int)
    requires r.Enables? || r.Disables?
    ensures Served(w, r, now).users.Keys == w.users.Keys
  {
    if r.Enables? {
      if MayEnable(w, r.jti, r.uid, r.passwordOk, r.matched, now) && r.writes > 0 {
        EnableOutcome(w, r.jti, r.uid, r.passwordOk, r.matched, r.writes, now);
      }
    } else if MayDisable(w, r.jti, r.uid, r.passwordOk, r.matched, now) && r.writes > 0 {
      DisableOutcome(w, r.jti, r.uid, r.passwordOk, r.matched, r.writes, now);
    }
  }

  /** Only a registration adds an account, and none is ever removed. */
  lemma RequestKeepsAccounts(w: World, r: Request, now: int)
    requires !r.Registers?
    ensures Next(w, r, now).users.Keys == w.users.Keys
  {
    if r.Enables? || r.Disables? {
      SwitchKeepsAccounts(w, r, now);
    }
  }

  // ----- over runs -----

  /**
   Over every run of requests each access token belongs to a session of its account and client: a
   refresh row of its family was signed in the same second, and each lives its own lifetime from then.
   */
  lemma AccessTokensBelong(start: World, requests: seq<(Request, int)>, jti: T.Jti)
    requires Initial(start)
    requires var s := Sessions.Run(start, requests).tokens; jti in s.signed && s.signed[jti].Access?
    ensures var s := Sessions.Run(start, requests).tokens;
            var token := s.signed[jti];
            exists r :: r in s.rows
              && s.rows[r].family == token.fam && s.rows[r].principal == token.sub
              && s.rows[r].user == token.uid && s.rows[r].client == token.azp
              && s.rows[r].expiresAt == (token.exp - start.tokens.accessTtl + start.tokens.refreshTtl) * 1000
  {
    SessionFamilies.RequestsAreTokenOps(start, requests);
    B.AccessBelongsToSession(start.tokens, SessionFamilies.TokenOps(start, requests), jti);
  }
}

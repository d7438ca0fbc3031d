/**
 Every sign-in request is a sequence of token operations, so what holds of token families over
 every run of those operations holds over every run of requests.
 */
module SessionFamilies {
  import opened Accounts
  import opened Common
  import opened Sessions
  import T = Tokens
  import TokenFamilies

  // ----- the operations of each request -----

  function StartOps(w: World, uid: int, client: T.RequestClient, ids: Ids, now: int): seq<T.Op>
    requires uid in w.users
  {
    if RequiresTwoFactor(w.users[uid].role) && !w.users[uid].twoFactor then []
    else
      [T.Issue(ResolveOrMint(w, uid, ids.principal).principals[uid], uid, client, ids.family, ids.access, ids.refresh, now)]
  }

  function LoginOps(w: World, uid: int, passwordOk: bool, client: T.RequestClient, ids: Ids, now: int): seq<T.Op> {
    if uid !in w.users || !passwordOk then []
    else
      var principal := ResolveOrMint(w, uid, ids.principal).principals[uid];
      if w.users[uid].twoFactor then
        [T.Sign(ids.access, T.Challenge(principal, uid, now / 1000 + T.MFA_CHALLENGE_TTL_SECONDS))]
      else if RequiresTwoFactor(w.users[uid].role) then
        [T.Sign(ids.access, T.Enrolment(principal, uid, now / 1000 + T.MFA_ENROLMENT_TTL_SECONDS, T.ClientNameOf(client)))]
      else StartOps(w, uid, client, ids, now)
  }

  function AnswerOps(w: World, jti: T.Jti, right: bool, starts: bool, client: T.RequestClient, ids: Ids, now: int): seq<T.Op> {
    if !OpenChallenge(w, jti, now) || !right then []
    else [T.RevokeToken(jti)] + if starts then StartOps(w, w.tokens.signed[jti].uid, client, ids, now) else []
  }

  function RefreshOps(w: World, jti: T.Jti, client: T.RequestClient, ids: Ids, now: int): seq<T.Op> {
    match RefreshSession(w, jti, client, ids, now).1
    case TwoFactorRequired => [T.EndFamily(w.tokens.signed[jti].fam, "two_factor_required")]
    case Outcome(_) => [T.Renew(jti, w.tokens.signed[jti].uid, client, ids.access, ids.refresh, now)]
    case _ => []
  }

  function LogoutOps(w: World, access: T.Jti, refresh: Option<T.Jti>, now: int): seq<T.Op> {
    if !T.Accepted(w.tokens, access, now) || !w.tokens.signed[access].Access? then []
    else
      var claims := w.tokens.signed[access];
      if refresh.None? then [T.RevokeToken(access), T.EndPrincipal(claims.sub, "logout")]
      else if !T.Verified(w.tokens, refresh.value, now) || !w.tokens.signed[refresh.value].Refresh?
              || w.tokens.signed[refresh.value].sub != claims.sub then []
      else [T.RevokeToken(access), T.EndFamily(w.tokens.signed[refresh.value].fam, "logout")]
  }

  /** Ending every session and then the token itself, stopped after `writes`. */
  function EndingOps(sub: string, jti: T.Jti, reason: string, writes: nat): seq<T.Op> {
    if writes == 0 then []
    else if writes == 1 then [T.EndPrincipal(sub, reason)]
    else [T.EndPrincipal(sub, reason), T.RevokeToken(jti)]
  }

  function EndOtherOps(sub: string, family: T.Family, reason: string, writes: nat): seq<T.Op> {
    if writes == 0 then [] else [T.EndOthers(sub, Some(family), reason)]
  }

  function EnableOps(w: World, jti: T.Jti, uid: int, ok: bool, matched: Option<int>, writes: nat, now: int): seq<T.Op> {
    if !MayEnable(w, jti, uid, ok, matched, now) || writes == 0 then []
    else
      var claims := w.tokens.signed[jti];
      if claims.Enrolment? then EndingOps(claims.sub, jti, "two_factor_enabled", writes - 1)
      else EndOtherOps(claims.sub, claims.fam, "two_factor_enabled", writes - 1)
  }

  function DisableOps(w: World, jti: T.Jti, uid: int, ok: bool, matched: Option<int>, writes: nat, now: int): seq<T.Op> {
    if !MayDisable(w, jti, uid, ok, matched, now) || writes == 0 then []
    else
      var claims := w.tokens.signed[jti];
      if RequiresTwoFactor(w.users[uid].role) then EndingOps(claims.sub, jti, "two_factor_disabled", writes - 1)
      else EndOtherOps(claims.sub, claims.fam, "two_factor_disabled", writes - 1)
  }

  function OpsOf(w: World, r: Request, now: int): seq<T.Op> {
    match r
    case Registers(uid, client, ids) =>
      if uid in w.users then []
      else StartOps(w.(users := w.users[uid := User(Customer, false, None, None)]), uid, client, ids, now)
    case LogsIn(uid, ok, client, ids) => LoginOps(w, uid, ok, client, ids, now)
    case AnswersCode(jti, matched, client, ids) =>
      AnswerOps(w, jti, matched.Some?, CodeStarts(w, jti, matched, now), client, ids, now)
    case AnswersPasskey(jti, asserted, advanced, client, ids) => AnswerOps(w, jti, asserted, advanced, client, ids, now)
    case Refreshes(jti, client, ids) => RefreshOps(w, jti, client, ids, now)
    case LogsOut(jti, refresh) => LogoutOps(w, jti, refresh, now)
    case SetsUp(_, _, _, _) => []
    case Enables(jti, uid, ok, matched, writes) => EnableOps(w, jti, uid, ok, matched, writes, now)
    case Disables(jti, uid, ok, matched, writes) => DisableOps(w, jti, uid, ok, matched, writes, now)
    case ChangesRole(_, _) => []
    case Sweeps => [T.SweepTombstones(now)]
  }

  // ----- and nothing else changes the tokens -----

  lemma RunOne(s: T.Store, op: T.Op)
    ensures T.Run(s, [op]) == T.Step(s, op)
  {
    assert [op][1..] == [];
  }

  lemma RunTwo(s: T.Store, first: T.Op, second: T.Op)
    ensures T.Run(s, [first, second]) == T.Step(T.Step(s, first), second)
  {
    assert [first, second][1..] == [second];
    RunOne(T.Step(s, first), second);
  }

  lemma StartIsTokenOps(w: World, uid: int, client: T.RequestClient, ids: Ids, now: int)
    requires uid in w.users && FreshIds(w, ids)
    ensures T.Run(w.tokens, StartOps(w, uid, client, ids, now)) == StartSession(w, uid, client, ids, now).tokens
  {
    if !(RequiresTwoFactor(w.users[uid].role) && !w.users[uid].twoFactor) {
      RunOne(w.tokens, StartOps(w, uid, client, ids, now)[0]);
    }
  }

  lemma LoginIsTokenOps(w: World, uid: int, ok: bool, client: T.RequestClient, ids: Ids, now: int)
    requires FreshIds(w, ids)
    ensures T.Run(w.tokens, LoginOps(w, uid, ok, client, ids, now)) == Login(w, uid, ok, client, ids, now).tokens
  {
    if uid in w.users && ok {
      if w.users[uid].twoFactor || RequiresTwoFactor(w.users[uid].role) {
        RunOne(w.tokens, LoginOps(w, uid, ok, client, ids, now)[0]);
      } else {
        StartIsTokenOps(w, uid, client, ids, now);
      }
    }
  }

  lemma {:induction false} RunConcat(s: T.Store, first: seq<T.Op>, second: seq<T.Op>)
    ensures T.Run(s, first + second) == T.Run(T.Run(s, first), second)
    decreases |first|
  {
    if first == [] {
      assert first + second == second;
    } else {
      assert (first + second)[1..] == first[1..] + second;
      RunConcat(T.Step(s, first[0]), first[1..], second);
    }
  }

  /** A consumed challenge and then a session, whatever else of the world changed in between. */
  lemma AnswerIsTokenOps(w: World, jti: T.Jti, consumed: World, client: T.RequestClient, ids: Ids, now: int)
    requires OpenChallenge(w, jti, now) && FreshIds(w, ids)
    requires var uid := w.tokens.signed[jti].uid;
             && consumed.tokens == DropToken(w, jti).tokens && consumed.principals == w.principals
             && uid in consumed.users && consumed.users[uid].role == w.users[uid].role
             && consumed.users[uid].twoFactor == w.users[uid].twoFactor
    ensures T.Run(w.tokens, [T.RevokeToken(jti)]) == consumed.tokens
    ensures T.Run(w.tokens, [T.RevokeToken(jti)] + StartOps(w, w.tokens.signed[jti].uid, client, ids, now))
         == StartSession(consumed, w.tokens.signed[jti].uid, client, ids, now).tokens
  {
    var uid := w.tokens.signed[jti].uid;
    RunOne(w.tokens, T.RevokeToken(jti));
    RunConcat(w.tokens, [T.RevokeToken(jti)], StartOps(w, uid, client, ids, now));
    assert StartOps(consumed, uid, client, ids, now) == StartOps(w, uid, client, ids, now);
    StartIsTokenOps(consumed, uid, client, ids, now);
  }

  lemma CodeIsTokenOps(w: World, jti: T.Jti, matched: Option<int>, client: T.RequestClient, ids: Ids, now: int)
    requires FreshIds(w, ids)
    ensures T.Run(w.tokens, AnswerOps(w, jti, matched.Some?, CodeStarts(w, jti, matched, now), client, ids, now))
         == VerifyTwoFactor(w, jti, matched, client, ids, now).tokens
  {
    if OpenChallenge(w, jti, now) && matched.Some? {
      var uid, consumed := w.tokens.signed[jti].uid, DropToken(w, jti);
      if StepIsFresh(w.users[uid], matched.value) {
        AnswerIsTokenOps(w, jti, BurnStep(consumed, uid, matched.value, now), client, ids, now);
      } else {
        AnswerIsTokenOps(w, jti, consumed, client, ids, now);
        assert [T.RevokeToken(jti)] + [] == [T.RevokeToken(jti)];
      }
    }
  }

  lemma PasskeyIsTokenOps(w: World, jti: T.Jti, asserted: bool, advanced: bool, client: T.RequestClient, ids: Ids, now: int)
    requires FreshIds(w, ids)
    ensures T.Run(w.tokens, AnswerOps(w, jti, asserted, advanced, client, ids, now))
         == VerifyPasskey(w, jti, asserted, advanced, client, ids, now).tokens
  {
    if OpenChallenge(w, jti, now) && asserted {
      AnswerIsTokenOps(w, jti, DropToken(w, jti), client, ids, now);
      assert [T.RevokeToken(jti)] + [] == [T.RevokeToken(jti)];
    }
  }

  lemma RefreshIsTokenOps(w: World, jti: T.Jti, client: T.RequestClient, ids: Ids, now: int)
    requires FreshIds(w, ids)
    ensures T.Run(w.tokens, RefreshOps(w, jti, client, ids, now)) == RefreshSession(w, jti, client, ids, now).0.tokens
  {
    var renewal := RefreshSession(w, jti, client, ids, now).1;
    if renewal.TwoFactorRequired? || renewal.Outcome? {
      RunOne(w.tokens, RefreshOps(w, jti, client, ids, now)[0]);
    }
  }

  lemma LogoutIsTokenOps(w: World, access: T.Jti, refresh: Option<T.Jti>, now: int)
    ensures T.Run(w.tokens, LogoutOps(w, access, refresh, now)) == Logout(w, access, refresh, now).tokens
  {
    var ops := LogoutOps(w, access, refresh, now);
    if ops != [] {
      RunTwo(w.tokens, ops[0], ops[1]);
    }
  }

  /** Ending every session and then the token. */
  lemma EndingIsTokenOps(w: World, jti: T.Jti, reason: string, writes: nat)
    requires jti in w.tokens.signed
    ensures var sub := w.tokens.signed[jti].sub;
            var ended := EndEverySession(w, sub, reason);
            var after := if writes == 0 then w else if writes == 1 then ended else DropToken(ended, jti);
            T.Run(w.tokens, EndingOps(sub, jti, reason, writes)) == after.tokens
  {
    var sub := w.tokens.signed[jti].sub;
    if writes == 1 {
      RunOne(w.tokens, T.EndPrincipal(sub, reason));
    } else if writes > 1 {
      RunTwo(w.tokens, T.EndPrincipal(sub, reason), T.RevokeToken(jti));
    }
  }

  lemma EndOthersIsTokenOps(w: World, sub: string, family: T.Family, reason: string, writes: nat)
    ensures T.Run(w.tokens, EndOtherOps(sub, family, reason, writes))
         == if writes == 0 then w.tokens else EndOtherSessions(w, sub, family, reason).tokens
  {
    if writes > 0 {
      RunOne(w.tokens, T.EndOthers(sub, Some(family), reason));
    }
  }

  lemma EnableIsTokenOps(w: World, jti: T.Jti, uid: int, ok: bool, matched: Option<int>, writes: nat, now: int)
    ensures T.Run(w.tokens, EnableOps(w, jti, uid, ok, matched, writes, now))
         == EnableTwoFactor(w, jti, uid, ok, matched, writes, now).tokens
  {
    if MayEnable(w, jti, uid, ok, matched, now) && writes > 0 {
      var burnt, claims := BurnStep(w, uid, matched.value, now), w.tokens.signed[jti];
      if claims.Enrolment? {
        EndingIsTokenOps(burnt, jti, "two_factor_enabled", writes - 1);
      } else {
        EndOthersIsTokenOps(burnt, claims.sub, claims.fam, "two_factor_enabled", writes - 1);
      }
    }
  }

  lemma DisableIsTokenOps(w: World, jti: T.Jti, uid: int, ok: bool, matched: Option<int>, writes: nat, now: int)
    ensures T.Run(w.tokens, DisableOps(w, jti, uid, ok, matched, writes, now))
         == DisableTwoFactor(w, jti, uid, ok, matched, writes, now).tokens
  {
    if MayDisable(w, jti, uid, ok, matched, now) && writes > 0 {
      var burnt, claims := BurnStep(w, uid, matched.value, now), w.tokens.signed[jti];
      if RequiresTwoFactor(w.users[uid].role) {
        EndingIsTokenOps(burnt, jti, "two_factor_disabled", writes - 1);
      } else {
        EndOthersIsTokenOps(burnt, claims.sub, claims.fam, "two_factor_disabled", writes - 1);
      }
    }
  }

  lemma ServedIsTokenOps(w: World, r: Request, now: int)
    requires Sessions.Enabled(w, r, now)
    ensures T.Run(w.tokens, OpsOf(w, r, now)) == Served(w, r, now).tokens
  {
    match r
    case Registers(uid, client, ids) =>
      if uid !in w.users {
        StartIsTokenOps(w.(users := w.users[uid := User(Customer, false, None, None)]), uid, client, ids, now);
      }
    case LogsIn(uid, ok, client, ids) => LoginIsTokenOps(w, uid, ok, client, ids, now);
    case AnswersCode(jti, matched, client, ids) => CodeIsTokenOps(w, jti, matched, client, ids, now);
    case AnswersPasskey(jti, asserted, advanced, client, ids) =>
      PasskeyIsTokenOps(w, jti, asserted, advanced, client, ids, now);
    case Refreshes(jti, client, ids) => RefreshIsTokenOps(w, jti, client, ids, now);
    case LogsOut(jti, refresh) => LogoutIsTokenOps(w, jti, refresh, now);
    case Enables(jti, uid, ok, matched, writes) => EnableIsTokenOps(w, jti, uid, ok, matched, writes, now);
    case Disables(jti, uid, ok, matched, writes) => DisableIsTokenOps(w, jti, uid, ok, matched, writes, now);
    case Sweeps => RunOne(w.tokens, T.SweepTombstones(now));
    case _ =>
  }

  function TokenOps(w: World, requests: seq<(Request, int)>): seq<T.Op>
    decreases |requests|
  {
    if requests == [] then []
    else
      var r, now := requests[0].0, requests[0].1;
      (if Sessions.Enabled(w, r, now) then OpsOf(w, r, now) else []) + TokenOps(Next(w, r, now), requests[1..])
  }

  /** Every run of requests is, on the tokens, a run of token operations. */
  lemma {:induction false} RequestsAreTokenOps(w: World, requests: seq<(Request, int)>)
    ensures T.Run(w.tokens, TokenOps(w, requests)) == Sessions.Run(w, requests).tokens
    decreases |requests|
  {
    if requests != [] {
      var r, now := requests[0].0, requests[0].1;
      var ops := if Sessions.Enabled(w, r, now) then OpsOf(w, r, now) else [];
      RunConcat(w.tokens, ops, TokenOps(Next(w, r, now), requests[1..]));
      if Sessions.Enabled(w, r, now) {
        ServedIsTokenOps(w, r, now);
      }
      RequestsAreTokenOps(Next(w, r, now), requests[1..]);
    }
  }

  // ----- families over runs of requests -----

  /**
   Over every run of sign-in requests a family's rows are one simple path within one account,
   at most one row unused and unrevoked, and all revoked or none.
   */
  lemma SessionsArePaths(start: World, requests: seq<(Request, int)>, j: T.Jti, k: T.Jti)
    requires Initial(start)
    requires var s := Sessions.Run(start, requests).tokens;
             j in s.rows && k in s.rows && s.rows[j].family == s.rows[k].family
    ensures var s := Sessions.Run(start, requests).tokens;
            && (exists chain :: T.IsPath(s.rows, s.rows[j].family, chain))
            && s.rows[j].principal == s.rows[k].principal
            && s.rows[j].revoked == s.rows[k].revoked
            && (!s.rows[j].used && s.rows[j].revoked.None? && !s.rows[k].used && s.rows[k].revoked.None? ==> j == k)
  {
    RequestsAreTokenOps(start, requests);
    TokenFamilies.FamiliesArePaths(start.tokens, TokenOps(start, requests), j, k);
  }

  /** Over every run of requests, a family that was revoked gets no row and no token any more. */
  lemma EndedSessionStaysEnded(start: World, before: seq<(Request, int)>, after: seq<(Request, int)>, family: T.Family)
    requires Initial(start) && TokenFamilies.Dead(Sessions.Run(start, before).tokens, family)
    ensures var s, s' := Sessions.Run(start, before).tokens, Sessions.Run(Sessions.Run(start, before), after).tokens;
            && TokenFamilies.Dead(s', family)
            && TokenFamilies.SameFamily(s.rows, s'.rows, family)
            && TokenFamilies.SignsNothing(s, s', family)
  {
    var w := Sessions.Run(start, before);
    RequestsAreTokenOps(start, before);
    TokenFamilies.RunKeepsInv(start.tokens, TokenOps(start, before));
    RequestsAreTokenOps(w, after);
    TokenFamilies.RevokedFamilyNeverMints(w.tokens, TokenOps(w, after), family);
  }

  // ----- revocation over runs of requests -----

  /** Every sweep of the operations comes at `now`. */
  ghost predicate SweepsAt(ops: seq<T.Op>, now: int) {
    forall i :: 0 <= i < |ops| && ops[i].SweepTombstones? ==> ops[i].now == now
  }

  lemma OpsSweepAt(w: World, r: Request, now: int)
    ensures SweepsAt(OpsOf(w, r, now), now)
  {
  }

  lemma {:induction false} GoneOps(s: T.Store, ops: seq<T.Op>, jti: T.Jti, from: int, now: int)
    requires T.Inv(s) && TokenFamilies.Gone(s, jti, from) && from <= now && SweepsAt(ops, now)
    ensures TokenFamilies.Gone(T.Run(s, ops), jti, now) && T.Inv(T.Run(s, ops))
    decreases |ops|
  {
    if ops != [] {
      TokenFamilies.StepKeepsInv(s, ops[0]);
      TokenFamilies.GoneStep(s, ops[0], jti, from);
      forall i | 0 <= i < |ops[1..]| && ops[1..][i].SweepTombstones?
        ensures ops[1..][i].now == now
      {
        assert ops[1..][i] == ops[i + 1];
      }
      GoneOps(T.Step(s, ops[0]), ops[1..], jti, if ops[0].SweepTombstones? then now else from, now);
    }
  }

  lemma {:induction false} GoneRequests(w: World, requests: seq<(Request, int)>, jti: T.Jti, later: int)
    requires T.Inv(w.tokens) && TokenFamilies.Gone(w.tokens, jti, w.clock)
    requires Sessions.Run(w, requests).clock <= later
    ensures TokenFamilies.Gone(Sessions.Run(w, requests).tokens, jti, later)
    decreases |requests|
  {
    if requests != [] {
      var r, now := requests[0].0, requests[0].1;
      if Sessions.Enabled(w, r, now) {
        OpsSweepAt(w, r, now);
        GoneOps(w.tokens, OpsOf(w, r, now), jti, w.clock, now);
        ServedIsTokenOps(w, r, now);
      }
      GoneRequests(Next(w, r, now), requests[1..], jti, later);
    }
  }

  lemma RunInv(start: World, requests: seq<(Request, int)>)
    requires Initial(start)
    ensures T.Inv(Sessions.Run(start, requests).tokens)
  {
    RequestsAreTokenOps(start, requests);
    TokenFamilies.RunKeepsInv(start.tokens, TokenOps(start, requests));
  }

  /**
   Revocation is permanent: in every state a run of requests reaches, a token with a tombstone
   is refused from then on, over every further run of requests and sweeps, at every later time.
   */
  lemma RevokedStaysRefused(start: World, before: seq<(Request, int)>, jti: T.Jti, after: seq<(Request, int)>, later: int)
    requires Initial(start) && jti in Sessions.Run(start, before).tokens.tombstones
    requires Sessions.Run(Sessions.Run(start, before), after).clock <= later
    ensures !T.Accepted(Sessions.Run(Sessions.Run(start, before), after).tokens, jti, later)
  {
    RunInv(start, before);
    GoneRequests(Sessions.Run(start, before), after, jti, later);
  }

  /** The tokens a request spends: an access token logged out, a challenge answered right. */
  predicate Spends(w: World, r: Request, now: int, jti: T.Jti) {
    match r
    case LogsOut(access, _) => access == jti && LogoutOps(w, access, r.refresh, now) != []
    case AnswersCode(challenge, matched, _, _) => challenge == jti && OpenChallenge(w, challenge, now) && matched.Some?
    case AnswersPasskey(challenge, asserted, _, _, _) => challenge == jti && OpenChallenge(w, challenge, now) && asserted
    case _ => false
  }

  lemma StartKeepsTombstones(w: World, uid: int, client: T.RequestClient, ids: Ids, now: int)
    requires uid in w.users
    ensures StartSession(w, uid, client, ids, now).tokens.tombstones == w.tokens.tombstones
  {
  }

  lemma SpentIsRecorded(w: World, r: Request, now: int, jti: T.Jti)
    requires Spends(w, r, now, jti)
    ensures jti in Served(w, r, now).tokens.tombstones
  {
    match r
    case AnswersCode(challenge, matched, client, ids) =>
      var uid, dropped := w.tokens.signed[challenge].uid, DropToken(w, challenge);
      StartKeepsTombstones(BurnStep(dropped, uid, matched.value, now), uid, client, ids, now);
    case AnswersPasskey(challenge, _, _, client, ids) =>
      StartKeepsTombstones(DropToken(w, challenge), w.tokens.signed[challenge].uid, client, ids, now);
    case LogsOut(_, _) =>
  }

  /** A token logged out or a challenge answered is refused for ever, over requests and sweeps. */
  lemma SpentStaysRefused(start: World, before: seq<(Request, int)>, r: Request, now: int, jti: T.Jti,
                          after: seq<(Request, int)>, later: int)
    requires Initial(start)
    requires var w := Sessions.Run(start, before);
             && Sessions.Enabled(w, r, now) && Spends(w, r, now, jti)
             && Sessions.Run(Next(w, r, now), after).clock <= later
    ensures !T.Accepted(Sessions.Run(Next(Sessions.Run(start, before), r, now), after).tokens, jti, later)
  {
    var w := Sessions.Run(start, before);
    SpentIsRecorded(w, r, now, jti);
    RunInv(start, before);
    TokenFamilies.RunKeepsInv(w.tokens, OpsOf(w, r, now));
    ServedIsTokenOps(w, r, now);
    GoneRequests(Next(w, r, now), after, jti, later);
  }
}

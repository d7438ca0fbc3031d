/**
 Who gets a token: every token the service ever signs was earned by a call that proved what the
 token needs, and every such proof is answered.
 */
module SignInGrants {
  import opened Accounts
  import Challenges
  import opened Common
  import SessionFamilies
  import SO = SessionOutcomes
  import Sessions
  import opened SignIn
  import opened SignInRules
  import T = Tokens

  /**
   The account the call proves itself to: a new one, one whose password was right, one whose
   challenge was answered right in time, or the one a refresh token may be renewed for.
   */
  function Earns(sv: Service, call: Call, now: int): Option<int> {
    match call
    case SignsUp(email, uid, _, _) => if email !in sv.accounts && uid !in sv.world.users then Some(uid) else None
    case SignsIn(email, ok, _, _) =>
      if ok && Tests(sv, call, now) == Some(email) && email in sv.accounts && sv.accounts[email] in sv.world.users
      then Some(sv.accounts[email]) else None
    case SendsCode(jti, matched, _, _) =>
      if Tests(sv, call, now).Some? && matched.Some? && SO.LaterStep(sv.world.users[sv.world.tokens.signed[jti].uid], matched.value)
      then Some(sv.world.tokens.signed[jti].uid) else None
    case SendsAssertion(jti, asserted, advanced, _, _) =>
      if Tests(sv, call, now).Some? && OptionsOpen(sv, jti, sv.world.tokens.signed[jti].uid, now) && asserted && advanced
      then Some(sv.world.tokens.signed[jti].uid) else None
    case Renews(jti, client, _) =>
      if SO.Renewable(sv.world, jti, client, now) then Some(sv.world.tokens.rows[jti].user) else None
    case _ => None
  }

  /**
   The call earns this token under this id. A right password alone earns a session only where
   the second factor is off and the account is no admin; it earns a challenge where it is on.
   */
  predicate Entitled(sv: Service, call: Call, now: int, jti: Jti, token: T.Token) {
    && Earns(sv, call, now) == Some(token.uid)
    && match call
       case SignsUp(_, _, _, ids) => PairOf(ids, jti, token)
       case SignsIn(_, _, _, ids) =>
         var user := sv.world.users[token.uid];
         if user.twoFactor then token.Challenge? && jti == ids.access
         else if user.role == Admin then token.Enrolment? && jti == ids.access
         else PairOf(ids, jti, token)
       case SendsCode(_, _, _, ids) => PairOf(ids, jti, token)
       case SendsAssertion(_, _, _, _, ids) => PairOf(ids, jti, token)
       case Renews(_, _, ids) => PairOf(ids, jti, token)
       case _ => false
  }

  predicate PairOf(ids: Sessions.Ids, jti: Jti, token: T.Token) {
    (token.Access? && jti == ids.access) || (token.Refresh? && jti == ids.refresh)
  }

  /** From `sv` to the world `after` the call signs what it earns and nothing else, and no token changes. */
  ghost predicate SignsEarned(sv: Service, call: Call, now: int, after: Sessions.World) {
    var signed, signed' := sv.world.tokens.signed, after.tokens.signed;
    && (forall j :: j in signed ==> j in signed' && signed'[j] == signed[j])
    && (forall j :: j in signed' && j !in signed ==> Entitled(sv, call, now, j, signed'[j]))
    && (Earns(sv, call, now).Some? ==>
          (call.SignsUp? || call.SignsIn? || call.SendsCode? || call.SendsAssertion? || call.Renews?)
          && call.ids.access in signed' && call.ids.access !in signed)
  }

  lemma SignUpEarns(sv: Service, call: Call, now: int)
    requires MayCall(sv, call, now) && call.SignsUp? && Reaches(sv, call, now)
    ensures SignsEarned(sv, call, now, Sessions.Next(sv.world, RequestOf(sv, call), now))
  {
    SO.RegisterOutcome(sv.world, call.uid, call.client, call.ids, now);
  }

  lemma SignInEarns(sv: Service, call: Call, now: int)
    requires MayCall(sv, call, now) && call.SignsIn? && Reaches(sv, call, now)
    ensures SignsEarned(sv, call, now, Sessions.Next(sv.world, RequestOf(sv, call), now))
  {
    SO.LoginOutcome(sv.world, sv.accounts[call.email], true, call.client, call.ids, now);
  }

  lemma PairEarned(sv: Service, call: Call, now: int, after: Sessions.World)
    requires call.SendsCode? || call.SendsAssertion? || call.Renews?
    requires Sessions.FreshIds(sv.world, call.ids) && Earns(sv, call, now).Some?
    requires SO.SignsPair(sv.world.tokens.signed, after.tokens.signed, Earns(sv, call, now).value, call.ids)
    ensures SignsEarned(sv, call, now, after)
  {
  }

  lemma CodeEarns(sv: Service, call: Call, now: int)
    requires MayCall(sv, call, now) && call.SendsCode? && Reaches(sv, call, now)
    ensures SignsEarned(sv, call, now, Sessions.Next(sv.world, RequestOf(sv, call), now))
  {
    SO.CodeSigns(sv.world, call.jti, call.matched, call.client, call.ids, now);
    if Earns(sv, call, now).Some? {
      PairEarned(sv, call, now, Sessions.Next(sv.world, RequestOf(sv, call), now));
    }
  }

  lemma AssertionEarns(sv: Service, call: Call, now: int)
    requires MayCall(sv, call, now) && call.SendsAssertion? && Reaches(sv, call, now)
    ensures SignsEarned(sv, call, now, Sessions.Next(sv.world, RequestOf(sv, call), now))
  {
    SO.PasskeySigns(sv.world, call.jti, call.asserted, call.advanced, call.client, call.ids, now);
    if Earns(sv, call, now).Some? {
      PairEarned(sv, call, now, Sessions.Next(sv.world, RequestOf(sv, call), now));
    }
  }

  lemma RenewalEarns(sv: Service, call: Call, now: int)
    requires MayCall(sv, call, now) && call.Renews? && T.SignedInv(sv.world.tokens)
    ensures SignsEarned(sv, call, now, Sessions.Next(sv.world, RequestOf(sv, call), now))
  {
    SO.RenewalSigns(sv.world, call.jti, call.client, call.ids, now);
    if Earns(sv, call, now).Some? {
      PairEarned(sv, call, now, Sessions.Next(sv.world, RequestOf(sv, call), now));
    }
  }

  lemma RestSignsNothing(sv: Service, call: Call, now: int)
    requires !call.SignsUp? && !call.SignsIn? && !call.SendsCode? && !call.SendsAssertion? && !call.Renews?
    ensures SignsEarned(sv, call, now, Sessions.Next(sv.world, RequestOf(sv, call), now))
  {
    SO.EndingSignsNothing(sv.world, RequestOf(sv, call), now);
  }

  /** A call that does not get through has earned nothing. */
  lemma OnlyThroughEarns(sv: Service, call: Call, now: int)
    requires !Reaches(sv, call, now)
    ensures Earns(sv, call, now).None?
  {
  }

  lemma CallSignsEarned(sv: Service, call: Call, now: int)
    requires MayCall(sv, call, now) && T.SignedInv(sv.world.tokens)
    ensures SignsEarned(sv, call, now, Serve(sv, call, now).world)
  {
    CallFollows(sv, call, now);
    if !Reaches(sv, call, now) {
      OnlyThroughEarns(sv, call, now);
    } else if call.SignsUp? {
      SignUpEarns(sv, call, now);
    } else if call.SignsIn? {
      SignInEarns(sv, call, now);
    } else if call.SendsCode? {
      CodeEarns(sv, call, now);
    } else if call.SendsAssertion? {
      AssertionEarns(sv, call, now);
    } else if call.Renews? {
      RenewalEarns(sv, call, now);
    } else {
      RestSignsNothing(sv, call, now);
    }
  }

  /** A wrong password leaves every account, token and row as it was. */
  lemma WrongPasswordDoesNothing(sv: Service, call: Call, now: int)
    requires call.SignsIn? && !call.ok
    ensures Serve(sv, call, now).world == sv.world
  {
    CallFollows(sv, call, now);
  }

  // ----- over runs -----

  lemma {:induction false} RunConcat(sv: Service, first: seq<(Call, int)>, second: seq<(Call, int)>)
    ensures Run(sv, first + second) == Run(Run(sv, first), second)
    decreases |first|
  {
    if first == [] {
      assert first + second == second;
    } else {
      assert (first + second)[1..] == first[1..] + second;
      RunConcat(Next(sv, first[0].0, first[0].1), first[1..], second);
    }
  }

  lemma RunSignedInv(start: Service, calls: seq<(Call, int)>)
    requires Initial(start)
    ensures T.SignedInv(Run(start, calls).world.tokens)
  {
    CallsAreRequests(start, calls);
    SessionFamilies.RunInv(start.world, RequestsOf(start, calls));
  }

  /** The last call of a non-empty run. */
  lemma RunLast(start: Service, calls: seq<(Call, int)>)
    requires calls != []
    ensures var k := |calls| - 1;
            Run(start, calls) == Next(Run(start, calls[..k]), calls[k].0, calls[k].1)
  {
    var k := |calls| - 1;
    assert calls[..k] + [calls[k]] == calls && [calls[k]][1..] == [];
    RunConcat(start, calls[..k], [calls[k]]);
  }

  /**
   Every token was earned: over every run, for each token the service has signed some call of the
   run proved itself to the token's account in the way the token needs, and was given it then.
   */
  lemma {:induction false} EveryTokenIsEarned(start: Service, calls: seq<(Call, int)>, jti: Jti) returns (k: nat)
    requires Initial(start) && jti in Run(start, calls).world.tokens.signed
    ensures k < |calls|
    ensures var sv := Run(start, calls[..k]);
            && MayCall(sv, calls[k].0, calls[k].1)
            && Entitled(sv, calls[k].0, calls[k].1, jti, Run(start, calls).world.tokens.signed[jti])
    decreases |calls|
  {
    if calls == [] {
      assert false;
    } else {
      k := |calls| - 1;
      var last := k;
      if jti in Run(start, calls[..last]).world.tokens.signed {
        k := EveryTokenIsEarned(start, calls[..last], jti);
        assert calls[..last][..k] == calls[..k];
      }
      LastCallSignsEarned(start, calls, jti);
    }
  }

  /** A token of the run was there before the last call, or the last call earned it. */
  lemma LastCallSignsEarned(start: Service, calls: seq<(Call, int)>, jti: Jti)
    requires Initial(start) && calls != [] && jti in Run(start, calls).world.tokens.signed
    ensures var k := |calls| - 1;
            var sv, token := Run(start, calls[..k]), Run(start, calls).world.tokens.signed[jti];
            if jti in sv.world.tokens.signed then token == sv.world.tokens.signed[jti]
            else MayCall(sv, calls[k].0, calls[k].1) && Entitled(sv, calls[k].0, calls[k].1, jti, token)
  {
    var k := |calls| - 1;
    RunLast(start, calls);
    RunSignedInv(start, calls[..k]);
    if MayCall(Run(start, calls[..k]), calls[k].0, calls[k].1) {
      CallSignsEarned(Run(start, calls[..k]), calls[k].0, calls[k].1);
    }
  }

  /** And every session row: the refresh token it records was earned. */
  lemma EveryRowIsEarned(start: Service, calls: seq<(Call, int)>, jti: Jti) returns (k: nat)
    requires Initial(start) && jti in Run(start, calls).world.tokens.rows
    ensures k < |calls|
    ensures var sv, row := Run(start, calls[..k]), Run(start, calls).world.tokens.rows[jti];
            && MayCall(sv, calls[k].0, calls[k].1)
            && Earns(sv, calls[k].0, calls[k].1) == Some(row.user)
            && (calls[k].0.SignsIn? ==> calls[k].0.ok && !sv.world.users[row.user].twoFactor && sv.world.users[row.user].role != Admin)
  {
    RunSignedInv(start, calls);
    var s := Run(start, calls).world.tokens;
    assert T.Matches(s.signed[jti], s.rows[jti]);
    k := EveryTokenIsEarned(start, calls, jti);
  }

  // ----- the second factor, seen from the next sign-in -----

  /** Every write of a switch happens: its claim, the burnt code, the ended sessions and the save. */
  predicate WholeSwitch(sv: Service, call: Call, now: int) {
    && (call.TurnsOn? || call.TurnsOff?) && MayCall(sv, call, now) && Tests(sv, call, now).Some? && call.writes >= 5
    && call.matched.Some? && sv.world.users[call.uid].secret.Some? && SO.LaterStep(sv.world.users[call.uid], call.matched.value)
    && (call.TurnsOn? ==> sv.world.tokens.signed[call.jti].Access? ==> call.password == Right)
    && (call.TurnsOff? ==> call.ok && sv.world.users[call.uid].twoFactor)
  }

  lemma SwitchedOff(sv: Service, call: Call, now: int)
    requires WholeSwitch(sv, call, now) && call.TurnsOff?
    ensures var users := Serve(sv, call, now).world.users;
            call.uid in users && !users[call.uid].twoFactor && users[call.uid].secret.None?
  {
    CallFollows(sv, call, now);
    SO.DisableOutcome(sv.world, call.jti, call.uid, true, call.matched, call.writes - 1, now);
  }

  lemma SwitchedOn(sv: Service, call: Call, now: int)
    requires WholeSwitch(sv, call, now) && call.TurnsOn?
    ensures var users := Serve(sv, call, now).world.users;
            call.uid in users && users[call.uid].twoFactor && users[call.uid].secret == sv.world.users[call.uid].secret
  {
    CallFollows(sv, call, now);
    SO.EnableOutcome(sv.world, call.jti, call.uid, call.password == Right, call.matched, call.writes - 1, now);
  }

  /** A right password is answered with a challenge exactly when the account's second factor is on. */
  lemma RightPasswordAnswer(sv: Service, entry: Call, now: int, uid: int, jti: Jti)
    requires entry.SignsIn? && MayCall(sv, entry, now) && Earns(sv, entry, now) == Some(uid)
    requires jti in Serve(sv, entry, now).world.tokens.signed && jti !in sv.world.tokens.signed
    ensures var token := Serve(sv, entry, now).world.tokens.signed[jti];
            uid in sv.world.users && token.uid == uid && (token.Challenge? <==> sv.world.users[uid].twoFactor)
  {
    EntrySignsEarned(sv, entry, now);
    EarnedAnswer(sv, entry, now, Serve(sv, entry, now).world, uid, jti);
  }

  lemma EntrySignsEarned(sv: Service, entry: Call, now: int)
    requires entry.SignsIn? && MayCall(sv, entry, now) && Earns(sv, entry, now).Some?
    ensures SignsEarned(sv, entry, now, Serve(sv, entry, now).world)
  {
    CallFollows(sv, entry, now);
    SignInEarns(sv, entry, now);
  }

  lemma EarnedAnswer(sv: Service, entry: Call, now: int, after: Sessions.World, uid: int, jti: Jti)
    requires entry.SignsIn? && Earns(sv, entry, now) == Some(uid) && SignsEarned(sv, entry, now, after)
    requires jti in after.tokens.signed && jti !in sv.world.tokens.signed
    ensures uid in sv.world.users && after.tokens.signed[jti].uid == uid
    ensures after.tokens.signed[jti].Challenge? <==> sv.world.users[uid].twoFactor
  {
    assert Entitled(sv, entry, now, jti, after.tokens.signed[jti]);
  }

  /**
   The second factor does what the switch says: the next right password of the account is
   answered with a challenge, and nothing else, exactly when it was switched on.
   */
  lemma SwitchDecidesNextSignIn(sv: Service, switch: Call, now: int, entry: Call, later: int, jti: Jti)
    requires WholeSwitch(sv, switch, now)
    requires var sv' := Next(sv, switch, now);
             && entry.SignsIn? && MayCall(sv', entry, later) && Earns(sv', entry, later) == Some(switch.uid)
             && jti in Next(sv', entry, later).world.tokens.signed && jti !in sv'.world.tokens.signed
    ensures var token := Next(Next(sv, switch, now), entry, later).world.tokens.signed[jti];
            token.uid == switch.uid && (token.Challenge? <==> switch.TurnsOn?)
  {
    var sv' := Next(sv, switch, now);
    if switch.TurnsOn? {
      SwitchedOn(sv, switch, now);
    } else {
      SwitchedOff(sv, switch, now);
    }
    RightPasswordAnswer(sv', entry, later, switch.uid, jti);
  }

  // ----- an email names one account -----

  /** `accounts` is the inverse of `emails`, and every account has an email. */
  ghost predicate Indexed(sv: Service) {
    && sv.emails.Keys == sv.world.users.Keys
    && (forall uid :: uid in sv.emails ==> sv.emails[uid] in sv.accounts && sv.accounts[sv.emails[uid]] == uid)
    && (forall email :: email in sv.accounts ==> sv.accounts[email] in sv.emails && sv.emails[sv.accounts[email]] == email)
  }

  lemma SignUpFiles(sv: Service, call: Call, now: int)
    requires MayCall(sv, call, now) && call.SignsUp?
    ensures var sv' := Serve(sv, call, now);
            if call.email in sv.accounts || call.uid in sv.world.users then sv' == sv
            else
              && sv'.emails == sv.emails[call.uid := call.email] && sv'.accounts == sv.accounts[call.email := call.uid]
              && sv'.world.users == sv.world.users[call.uid := Sessions.User(Customer, false, None, None)]
  {
    CallFollows(sv, call, now);
    if Reaches(sv, call, now) {
      SO.RegisterOutcome(sv.world, call.uid, call.client, call.ids, now);
    }
  }

  lemma OthersKeepAccounts(sv: Service, call: Call, now: int)
    requires !call.SignsUp?
    ensures Serve(sv, call, now).world.users.Keys == sv.world.users.Keys
  {
    CallFollows(sv, call, now);
    SO.RequestKeepsAccounts(sv.world, RequestOf(sv, call), now);
  }

  lemma CallKeepsIndexed(sv: Service, call: Call, now: int)
    requires MayCall(sv, call, now) && Indexed(sv)
    ensures Indexed(Serve(sv, call, now))
  {
    if call.SignsUp? {
      SignUpFiles(sv, call, now);
    } else {
      OthersKeepAccounts(sv, call, now);
      OthersKeepEmails(sv, call, now);
    }
  }

  predicate SameIndex(sv: Service, sv': Service) {
    sv'.emails == sv.emails && sv'.accounts == sv.accounts
  }

  lemma ReachedKeepsEmails(sv: Service, request: Sessions.Request, uid: int, now: int)
    ensures SameIndex(sv, Reached(sv, request, uid, now)) && SameIndex(sv, Succeeded(Reached(sv, request, uid, now), uid))
  {
  }

  lemma CodeKeepsEmails(sv: Service, call: Call, now: int)
    requires call.SendsCode?
    ensures SameIndex(sv, Serve(sv, call, now))
  {
    if Sessions.OpenChallenge(sv.world, call.jti, now) {
      var uid := sv.world.tokens.signed[call.jti].uid;
      ReachedKeepsEmails(ClaimedAnswer(sv, call.jti, now).0, RequestOf(sv, call), uid, now);
    }
  }

  lemma AssertionKeepsEmails(sv: Service, call: Call, now: int)
    requires call.SendsAssertion?
    ensures SameIndex(sv, Serve(sv, call, now))
  {
    if Sessions.OpenChallenge(sv.world, call.jti, now) {
      var uid := sv.world.tokens.signed[call.jti].uid;
      var spent := Challenges.SpendSignIn(sv.options, call.jti, uid, now).0;
      ReachedKeepsEmails(ClaimedAnswer(sv, call.jti, now).0.(options := spent), RequestOf(sv, call), uid, now);
    }
  }

  lemma SetUpKeepsEmails(sv: Service, call: Call, now: int)
    requires call.Prepares?
    ensures SameIndex(sv, Serve(sv, call, now))
  {
  }

  lemma SwitchKeepsEmails(sv: Service, call: Call, now: int)
    requires call.TurnsOn? || call.TurnsOff?
    ensures SameIndex(sv, Serve(sv, call, now))
  {
  }

  lemma SignInKeepsEmails(sv: Service, call: Call, now: int)
    requires call.SignsIn?
    ensures SameIndex(sv, Serve(sv, call, now))
  {
    var uid := if call.email in sv.accounts then sv.accounts[call.email] else 0;
    ReachedKeepsEmails(Claimed(sv, call.email, now).0, RequestOf(sv, call), uid, now);
  }

  lemma OthersKeepEmails(sv: Service, call: Call, now: int)
    requires !call.SignsUp?
    ensures SameIndex(sv, Serve(sv, call, now))
  {
    if call.SendsCode? {
      CodeKeepsEmails(sv, call, now);
    } else if call.SendsAssertion? {
      AssertionKeepsEmails(sv, call, now);
    } else if call.Prepares? {
      SetUpKeepsEmails(sv, call, now);
    } else if call.TurnsOn? || call.TurnsOff? {
      SwitchKeepsEmails(sv, call, now);
    } else if call.SignsIn? {
      SignInKeepsEmails(sv, call, now);
    }
  }

  /** Over every run no two accounts share an email, and a sign-in finds the account that registered it. */
  lemma {:induction false} EmailsStayDistinct(start: Service, calls: seq<(Call, int)>)
    requires Indexed(start)
    ensures Indexed(Run(start, calls))
    decreases |calls|
  {
    if calls != [] {
      var call, now := calls[0].0, calls[0].1;
      if MayCall(start, call, now) {
        CallKeepsIndexed(start, call, now);
      }
      EmailsStayDistinct(Next(start, call, now), calls[1..]);
    }
  }
}

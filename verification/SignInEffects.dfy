/** What a sign-in leaves beside the sessions: the kind a principal shows, and the passkey options. */
module SignInEffects {
  import opened Accounts
  import Challenges
  import opened Common
  import Sessions
  import opened SignIn
  import opened SignInGrants
  import opened SignInRules
  import SO = SessionOutcomes

  // ----- the kind a principal shows -----

  /** The account has a principal, and it shows what the account is. */
  ghost predicate ShowsRole(sv: Service, uid: int) {
    && uid in sv.world.users && uid in sv.world.principals && sv.world.principals[uid] in sv.kinds
    && var kind := sv.kinds[sv.world.principals[uid]];
       match sv.world.users[uid].role
       case Customer => kind == CustomerKind
       case Seller => kind == MerchantKind
       case Courier => kind == DriverKind
       case Admin => kind == StaffKind
  }

  lemma SucceededShows(sv: Service, uid: int)
    requires uid in sv.world.users && uid in sv.world.principals
    ensures ShowsRole(Succeeded(sv, uid), uid)
  {
  }

  /** The call starts a session or an enrolment for the account. */
  predicate Starts(sv: Service, call: Call, now: int, uid: int) {
    && Earns(sv, call, now) == Some(uid) && !call.Renews?
    && (call.SignsIn? ==> !sv.world.users[uid].twoFactor)
  }

  lemma SignUpShows(sv: Service, call: Call, now: int)
    requires MayCall(sv, call, now) && call.SignsUp? && Starts(sv, call, now, call.uid)
    ensures ShowsRole(Serve(sv, call, now), call.uid)
  {
    var filed := sv.(emails := sv.emails[call.uid := call.email], accounts := sv.accounts[call.email := call.uid]);
    SO.RegisterOutcome(sv.world, call.uid, call.client, call.ids, now);
    SucceededShows(Reached(filed, RequestOf(sv, call), call.uid, now), call.uid);
  }

  lemma SignInShows(sv: Service, call: Call, now: int, uid: int)
    requires MayCall(sv, call, now) && call.SignsIn? && Starts(sv, call, now, uid)
    ensures ShowsRole(Serve(sv, call, now), uid)
  {
    AccountClaims(sv, call.email, now);
    SO.LoginOutcome(sv.world, uid, true, call.client, call.ids, now);
    SucceededShows(Reached(Claimed(sv, call.email, now).0, RequestOf(sv, call), uid, now), uid);
  }

  lemma CodeShows(sv: Service, call: Call, now: int, uid: int)
    requires MayCall(sv, call, now) && call.SendsCode? && Starts(sv, call, now, uid)
    ensures ShowsRole(Serve(sv, call, now), uid)
  {
    AnswerClaims(sv, call.jti, now);
    SO.CodeOutcome(sv.world, call.jti, call.matched, call.client, call.ids, now);
    SucceededShows(Reached(ClaimedAnswer(sv, call.jti, now).0, RequestOf(sv, call), uid, now), uid);
  }

  lemma AssertionShows(sv: Service, call: Call, now: int, uid: int)
    requires MayCall(sv, call, now) && call.SendsAssertion? && Starts(sv, call, now, uid)
    ensures ShowsRole(Serve(sv, call, now), uid)
  {
    AnswerClaims(sv, call.jti, now);
    SO.PasskeyOutcome(sv.world, call.jti, call.asserted, call.advanced, call.client, call.ids, now);
    var spent := Challenges.SpendSignIn(sv.options, call.jti, uid, now).0;
    SucceededShows(Reached(ClaimedAnswer(sv, call.jti, now).0.(options := spent), RequestOf(sv, call), uid, now), uid);
  }

  /** Whoever signs up or in, by password, code or passkey, shows from then on what the account is. */
  lemma SignedInShowsRole(sv: Service, call: Call, now: int, uid: int)
    requires MayCall(sv, call, now) && Starts(sv, call, now, uid)
    ensures ShowsRole(Serve(sv, call, now), uid)
  {
    if call.SignsUp? {
      SignUpShows(sv, call, now);
    } else if call.SignsIn? {
      SignInShows(sv, call, now, uid);
    } else if call.SendsCode? {
      CodeShows(sv, call, now, uid);
    } else {
      AssertionShows(sv, call, now, uid);
    }
  }

  /** A principal minted for a right password shows it, too, also where only a challenge is signed. */
  lemma MintedShowsRole(sv: Service, call: Call, now: int, uid: int)
    requires MayCall(sv, call, now) && call.SignsIn? && Earns(sv, call, now) == Some(uid) && uid !in sv.world.principals
    ensures ShowsRole(Serve(sv, call, now), uid)
  {
    if Starts(sv, call, now, uid) {
      SignInShows(sv, call, now, uid);
    } else {
      AccountClaims(sv, call.email, now);
      SO.LoginOutcome(sv.world, uid, true, call.client, call.ids, now);
    }
  }

  // ----- passkey options -----

  /** Options are given for an open challenge to an account that holds a passkey, for two minutes; to no other. */
  lemma OptionsGiven(sv: Service, call: Call, now: int, uid: int, later: int)
    requires call.AsksOptions? && Sessions.OpenChallenge(sv.world, call.jti, now)
    requires uid == sv.world.tokens.signed[call.jti].uid
    ensures var sv' := Serve(sv, call, now);
            if !call.held || (call.jti in sv.options && sv.options[call.jti].user != uid) then sv' == sv
            else
              && (OptionsOpen(sv', call.jti, uid, later) <==> later < now + 120_000)
              && sv'.options[call.jti].challenge == call.nonce
  {
  }

  /** The call gives or spends options of the challenge. */
  predicate UsesOptions(call: Call, jti: Jti) {
    (call.AsksOptions? || call.SendsAssertion?) && call.jti == jti
  }

  lemma ReachedKeepsOptions(sv: Service, request: Sessions.Request, uid: int, now: int)
    ensures Reached(sv, request, uid, now).options == sv.options
    ensures Succeeded(Reached(sv, request, uid, now), uid).options == sv.options
  {
  }

  lemma SignUpKeepsOptions(sv: Service, call: Call, now: int)
    requires call.SignsUp?
    ensures Serve(sv, call, now).options == sv.options
  {
  }

  lemma SignInKeepsOptions(sv: Service, call: Call, now: int)
    requires call.SignsIn?
    ensures Serve(sv, call, now).options == sv.options
  {
    var uid := if call.email in sv.accounts then sv.accounts[call.email] else 0;
    AccountClaims(sv, call.email, now);
    ReachedKeepsOptions(Claimed(sv, call.email, now).0, RequestOf(sv, call), uid, now);
  }

  lemma CodeKeepsOptions(sv: Service, call: Call, now: int)
    requires call.SendsCode?
    ensures Serve(sv, call, now).options == sv.options
  {
    if Sessions.OpenChallenge(sv.world, call.jti, now) {
      AnswerClaims(sv, call.jti, now);
      ReachedKeepsOptions(ClaimedAnswer(sv, call.jti, now).0, RequestOf(sv, call), sv.world.tokens.signed[call.jti].uid, now);
    }
  }

  lemma SwitchKeepsOptions(sv: Service, call: Call, now: int)
    requires call.TurnsOn? || call.TurnsOff?
    ensures Serve(sv, call, now).options == sv.options
  {
  }

  lemma OthersKeepOptions(sv: Service, call: Call, now: int)
    requires !call.AsksOptions? && !call.SendsAssertion? && !call.Sweeps?
    ensures Serve(sv, call, now).options == sv.options
  {
    if call.SignsUp? {
      SignUpKeepsOptions(sv, call, now);
    } else if call.SignsIn? {
      SignInKeepsOptions(sv, call, now);
    } else if call.SendsCode? {
      CodeKeepsOptions(sv, call, now);
    } else if call.TurnsOn? || call.TurnsOff? {
      SwitchKeepsOptions(sv, call, now);
    }
  }

  lemma AssertionSpends(sv: Service, call: Call, now: int)
    requires call.SendsAssertion?
    ensures var options' := Serve(sv, call, now).options;
            if Tests(sv, call, now).Some?
            then options' == Challenges.SpendSignIn(sv.options, call.jti, sv.world.tokens.signed[call.jti].uid, now).0
            else options' == sv.options
  {
    if Sessions.OpenChallenge(sv.world, call.jti, now) {
      var uid := sv.world.tokens.signed[call.jti].uid;
      var spent := Challenges.SpendSignIn(sv.options, call.jti, uid, now).0;
      AnswerClaims(sv, call.jti, now);
      ReachedKeepsOptions(ClaimedAnswer(sv, call.jti, now).0.(options := spent), RequestOf(sv, call), uid, now);
    }
  }

  /** An assertion that is looked at leaves no open options, right or wrong. */
  lemma AssertedOptionsClose(sv: Service, call: Call, now: int, later: int)
    requires call.SendsAssertion? && Tests(sv, call, now).Some? && now <= later
    ensures !OptionsOpen(Serve(sv, call, now), call.jti, sv.world.tokens.signed[call.jti].uid, later)
  {
    AssertionSpends(sv, call, now);
  }

  lemma StepKeepsOptions(sv: Service, call: Call, now: int, jti: Jti, uid: int, later: int)
    requires !UsesOptions(call, jti) && now <= later
    ensures OptionsOpen(Serve(sv, call, now), jti, uid, later) <==> OptionsOpen(sv, jti, uid, later)
  {
    if call.SendsAssertion? {
      AssertionSpends(sv, call, now);
    } else if !call.AsksOptions? && !call.Sweeps? {
      OthersKeepOptions(sv, call, now);
    }
  }

  lemma {:induction false} ClockRuns(sv: Service, calls: seq<(Call, int)>)
    ensures sv.clock <= Run(sv, calls).clock
    decreases |calls|
  {
    if calls != [] {
      ClockRuns(Next(sv, calls[0].0, calls[0].1), calls[1..]);
    }
  }

  /** Over every run that neither gives nor spends options of a challenge, sweeps included, they are as open as they were. */
  lemma {:induction false} OptionsStayOpen(sv: Service, calls: seq<(Call, int)>, jti: Jti, uid: int, now: int)
    requires forall i :: 0 <= i < |calls| ==> !UsesOptions(calls[i].0, jti)
    requires Run(sv, calls).clock <= now
    ensures OptionsOpen(Run(sv, calls), jti, uid, now) <==> OptionsOpen(sv, jti, uid, now)
    decreases |calls|
  {
    if calls != [] {
      var call, at := calls[0].0, calls[0].1;
      ClockRuns(Next(sv, call, at), calls[1..]);
      if MayCall(sv, call, at) {
        StepKeepsOptions(sv, call, at, jti, uid, now);
      }
      OptionsStayOpen(Next(sv, call, at), calls[1..], jti, uid, now);
    }
  }
}

/**
 What holds of the sign-in service whole: its sessions are those of the session model, and no
 secret is tested faster than the back-off allows.
 */
module SignInRules {
  import opened Accounts
  import AttemptRefinement
  import AttemptStore
  import Challenges
  import opened Common
  import SessionRules
  import Sessions
  import opened SignIn

  // ----- the sessions are those of the session model -----

  /** The account's options are open: given to it, not yet spent, and not out of date. */
  predicate OptionsOpen(sv: Service, jti: Jti, uid: int, now: int) {
    jti in sv.options && sv.options[jti].user == uid && !sv.options[jti].used && now < sv.options[jti].expiresAt
  }

  /**
   The call gets through to the sessions. One that tests a secret needs its claim admitted; a
   sign-in needs a known email and the right password, an assertion open options as well.
   */
  predicate Reaches(sv: Service, call: Call, now: int) {
    match call
    case SignsUp(email, uid, _, _) => email !in sv.accounts && uid !in sv.world.users
    case SignsIn(email, ok, _, _) =>
      ok && Tests(sv, call, now) == Some(email) && email in sv.accounts && sv.accounts[email] in sv.world.users
    case SendsCode(_, _, _, _) => Tests(sv, call, now).Some?
    case SendsAssertion(jti, _, _, _, _) =>
      Tests(sv, call, now).Some? && OptionsOpen(sv, jti, sv.world.tokens.signed[jti].uid, now)
    case Prepares(jti, uid, password, _) =>
      CarriesPassword(sv, jti, uid, password, now) && (sv.world.tokens.signed[jti].Enrolment? || Tests(sv, call, now).Some?)
    case TurnsOn(_, _, _, _, _) => Tests(sv, call, now).Some?
    case TurnsOff(_, _, _, _, _) => Tests(sv, call, now).Some?
    case ProvesPassword(_, _) => false
    case AsksOptions(_, _, _) => false
    case ConfirmsPassword(_, _, _) => false
    case _ => true
  }

  /** The world after a call: one request further if the call gets through, and else as it was. */
  ghost predicate Follows(sv: Service, call: Call, now: int) {
    Serve(sv, call, now).world
    == if Reaches(sv, call, now) then Sessions.Next(sv.world, RequestOf(sv, call), now) else sv.world
  }

  /** The request a call makes of the sessions, once it is let through. */
  function RequestOf(sv: Service, call: Call): Sessions.Request {
    match call
    case SignsUp(_, uid, client, ids) => Sessions.Registers(uid, client, ids)
    case SignsIn(email, _, client, ids) =>
      Sessions.LogsIn(if email in sv.accounts then sv.accounts[email] else 0, true, client, ids)
    case SendsCode(jti, matched, client, ids) => Sessions.AnswersCode(jti, matched, client, ids)
    case SendsAssertion(jti, asserted, advanced, client, ids) => Sessions.AnswersPasskey(jti, asserted, advanced, client, ids)
    case Renews(jti, client, ids) => Sessions.Refreshes(jti, client, ids)
    case SignsOut(jti, refresh) => Sessions.LogsOut(jti, refresh)
    case Prepares(jti, uid, password, secret) =>
      var enrolling := jti in sv.world.tokens.signed && sv.world.tokens.signed[jti].Enrolment?;
      Sessions.SetsUp(jti, uid, enrolling || password == Right, secret)
    case TurnsOn(jti, uid, password, matched, writes) =>
      Sessions.Enables(jti, uid, password == Right, matched, if writes == 0 then 0 else writes - 1)
    case TurnsOff(jti, uid, ok, matched, writes) =>
      Sessions.Disables(jti, uid, ok, matched, if writes == 0 then 0 else writes - 1)
    case ChangesRole(uid, role) => Sessions.ChangesRole(uid, role)
    case _ => Sessions.Sweeps
  }

  lemma EntryFollows(sv: Service, call: Call, now: int)
    requires call.SignsUp? || call.SignsIn? || call.Renews? || call.SignsOut? || call.ChangesRole? || call.Sweeps?
    ensures Follows(sv, call, now)
  {
  }

  lemma CodeFollows(sv: Service, call: Call, now: int)
    requires call.SendsCode?
    ensures Follows(sv, call, now)
  {
    if Sessions.OpenChallenge(sv.world, call.jti, now) {
      AnswerClaims(sv, call.jti, now);
    }
  }

  lemma PasskeyFollows(sv: Service, call: Call, now: int)
    requires call.SendsAssertion?
    ensures Follows(sv, call, now)
  {
    if Sessions.OpenChallenge(sv.world, call.jti, now) {
      AnswerClaims(sv, call.jti, now);
    }
  }

  lemma SetUpFollows(sv: Service, call: Call, now: int)
    requires call.Prepares?
    ensures Follows(sv, call, now)
  {
    if CarriesPassword(sv, call.jti, call.uid, call.password, now) {
      if sv.world.tokens.signed[call.jti].Enrolment? {
        assert Serve(sv, call, now) == Passed(sv, Sessions.SetsUp(call.jti, call.uid, true, call.secret), now);
      }
    }
  }

  lemma TurnOnFollows(sv: Service, call: Call, now: int)
    requires call.TurnsOn?
    ensures Follows(sv, call, now)
  {
    if CarriesPassword(sv, call.jti, call.uid, call.password, now) && call.writes > 0 {
      AccountClaims(sv, EmailOf(sv, call.uid), now);
    }
  }

  lemma TurnOffFollows(sv: Service, call: Call, now: int)
    requires call.TurnsOff?
    ensures Follows(sv, call, now)
  {
    if FromSession(sv, call.jti, call.uid, now) && call.writes > 0 {
      AccountClaims(sv, EmailOf(sv, call.uid), now);
    }
  }

  lemma RestFollows(sv: Service, call: Call, now: int)
    requires call.ProvesPassword? || call.AsksOptions? || call.ConfirmsPassword?
    ensures Follows(sv, call, now)
  {
  }

  lemma CallFollows(sv: Service, call: Call, now: int)
    ensures Follows(sv, call, now)
  {
    if call.SendsCode? {
      CodeFollows(sv, call, now);
    } else if call.SendsAssertion? {
      PasskeyFollows(sv, call, now);
    } else if call.Prepares? {
      SetUpFollows(sv, call, now);
    } else if call.TurnsOn? {
      TurnOnFollows(sv, call, now);
    } else if call.TurnsOff? {
      TurnOffFollows(sv, call, now);
    } else if call.ProvesPassword? || call.AsksOptions? || call.ConfirmsPassword? {
      RestFollows(sv, call, now);
    } else {
      EntryFollows(sv, call, now);
    }
  }

  /** The requests a run makes of the sessions: exactly those of the calls that get through. */
  function RequestsOf(sv: Service, calls: seq<(Call, int)>): seq<(Sessions.Request, int)>
    decreases |calls|
  {
    if calls == [] then []
    else
      var call, now := calls[0].0, calls[0].1;
      (if MayCall(sv, call, now) && Reaches(sv, call, now) then [(RequestOf(sv, call), now)] else [])
      + RequestsOf(Next(sv, call, now), calls[1..])
  }

  lemma {:induction false} CallsAreRequests(sv: Service, calls: seq<(Call, int)>)
    ensures Run(sv, calls).world == Sessions.Run(sv.world, RequestsOf(sv, calls))
    decreases |calls|
  {
    if calls != [] {
      var call, now := calls[0].0, calls[0].1;
      var rest := RequestsOf(Next(sv, call, now), calls[1..]);
      CallsAreRequests(Next(sv, call, now), calls[1..]);
      CallFollows(sv, call, now);
      if MayCall(sv, call, now) && Reaches(sv, call, now) {
        assert RequestsOf(sv, calls)[1..] == rest;
      } else {
        assert [] + rest == rest;
      }
    }
  }

  /** So every rule of the sessions holds behind the back-off: for one, the admin rule. */
  lemma AdminRule(start: Service, calls: seq<(Call, int)>, jti: Jti)
    requires Initial(start)
    requires var w := Run(start, calls).world; jti in w.tokens.rows && w.tokens.rows[jti].user in w.users
    ensures var w := Run(start, calls).world;
            var user := w.users[w.tokens.rows[jti].user];
            user.role == Admin && !user.twoFactor ==> w.tokens.rows[jti].revoked.Some?
  {
    CallsAreRequests(start, calls);
    SessionRules.AdminRule(start.world, RequestsOf(start, calls), jti);
  }

  // ----- secrets are tested slowly -----

  /** The claim a call makes before it looks at the secret it carries. */
  function ClaimOf(sv: Service, call: Call, now: int): seq<AttemptStore.Op> {
    match call
    case SignsIn(email, _, _, _) => [AttemptStore.Claim(email, now, now)]
    case ProvesPassword(email, _) => [AttemptStore.Claim(email, now, now)]
    case SendsCode(jti, _, _, _) => AnswerClaim(sv, jti, now)
    case SendsAssertion(jti, _, _, _, _) => AnswerClaim(sv, jti, now)
    case ConfirmsPassword(jti, uid, _) =>
      if FromSession(sv, jti, uid, now) then [AttemptStore.Claim(EmailOf(sv, uid), now, now)] else []
    case Prepares(jti, uid, password, _) =>
      if CarriesPassword(sv, jti, uid, password, now) && sv.world.tokens.signed[jti].Access?
      then [AttemptStore.Claim(EmailOf(sv, uid), now, now)] else []
    case TurnsOn(jti, uid, password, _, writes) =>
      if CarriesPassword(sv, jti, uid, password, now) && writes > 0
      then [AttemptStore.Claim(EmailOf(sv, uid), now, now)] else []
    case TurnsOff(jti, uid, _, _, writes) =>
      if FromSession(sv, jti, uid, now) && writes > 0 then [AttemptStore.Claim(EmailOf(sv, uid), now, now)] else []
    case _ => []
  }

  function AnswerClaim(sv: Service, jti: Jti, now: int): seq<AttemptStore.Op> {
    if !Sessions.OpenChallenge(sv.world, jti, now) then []
    else
      var claims := sv.world.tokens.signed[jti];
      [AttemptStore.Answer(EmailOf(sv, claims.uid), jti, claims.exp * 1000, now, now)]
  }

  /** The account whose secret the call gets to test: its claim was admitted. */
  function Tests(sv: Service, call: Call, now: int): Option<string> {
    var claim := ClaimOf(sv, call, now);
    if claim != [] && AttemptStore.AdmittedOn(claim[0], AttemptStore.Step(sv.attempts, claim[0]).1, claim[0].key)
    then Some(claim[0].key) else None
  }

  /** The account a call clears: a session or an enrolment starts for it. */
  function Cleared(sv: Service, call: Call, now: int): Option<string> {
    match call
    case SignsUp(email, uid, _, _) => if email in sv.accounts || uid in sv.world.users then None else Some(email)
    case SignsIn(email, ok, _, _) =>
      if Tests(sv, call, now).Some? && ok && email in sv.accounts && sv.accounts[email] in sv.world.users
         && !sv.world.users[sv.accounts[email]].twoFactor
      then Some(EmailOf(sv, sv.accounts[email])) else None
    case SendsCode(jti, matched, _, _) =>
      if Tests(sv, call, now).Some? && Sessions.CodeStarts(sv.world, jti, matched, now)
      then Some(EmailOf(sv, sv.world.tokens.signed[jti].uid)) else None
    case SendsAssertion(jti, asserted, advanced, _, _) =>
      if Tests(sv, call, now).Some? && Sessions.OpenChallenge(sv.world, jti, now) && asserted && advanced
         && Challenges.SpendSignIn(sv.options, jti, sv.world.tokens.signed[jti].uid, now).1.Some?
      then Some(EmailOf(sv, sv.world.tokens.signed[jti].uid)) else None
    case _ => None
  }

  /** What a call does to the attempts, as operations of their store. */
  function OpsOf(sv: Service, call: Call, now: int): seq<AttemptStore.Op> {
    if call.Sweeps? then [AttemptStore.Sweep(now)]
    else ClaimOf(sv, call, now) + match Cleared(sv, call, now) case None => [] case Some(email) => [AttemptStore.Clear(email)]
  }

  lemma AfterOne(s: AttemptStore.Store, op: AttemptStore.Op)
    ensures AttemptRefinement.After(s, [op]) == AttemptStore.Step(s, op).0
  {
    assert [op][1..] == [];
  }

  lemma AfterTwo(s: AttemptStore.Store, first: AttemptStore.Op, second: AttemptStore.Op)
    ensures AttemptRefinement.After(s, [first, second]) == AttemptStore.Step(AttemptStore.Step(s, first).0, second).0
  {
    assert [first, second][1..] == [second];
    AfterOne(AttemptStore.Step(s, first).0, second);
  }

  /** The attempts after a claim and a clearing, where there is one. */
  lemma AfterClaim(s: AttemptStore.Store, claim: AttemptStore.Op, cleared: Option<string>)
    ensures var ops := [claim] + match cleared case None => [] case Some(email) => [AttemptStore.Clear(email)];
            AttemptRefinement.After(s, ops) == ClaimedThen(s, claim, cleared)
  {
    AfterOne(s, claim);
    assert [claim] + [] == [claim];
    if cleared.Some? {
      AfterTwo(s, claim, AttemptStore.Clear(cleared.value));
    }
  }

  lemma SignUpAttempts(sv: Service, call: Call, now: int)
    requires call.SignsUp?
    ensures AttemptRefinement.After(sv.attempts, OpsOf(sv, call, now)) == Serve(sv, call, now).attempts
  {
    if Cleared(sv, call, now).Some? {
      AfterOne(sv.attempts, AttemptStore.Clear(call.email));
      assert [] + [AttemptStore.Clear(call.email)] == [AttemptStore.Clear(call.email)];
    }
  }

  lemma SignInAttempts(sv: Service, call: Call, now: int)
    requires call.SignsIn?
    ensures AttemptRefinement.After(sv.attempts, OpsOf(sv, call, now)) == Serve(sv, call, now).attempts
  {
    AfterClaim(sv.attempts, AttemptStore.Claim(call.email, now, now), Cleared(sv, call, now));
  }

  /** The attempts after a claim, and a clearing where a session started. */
  function ClaimedThen(s: AttemptStore.Store, claim: AttemptStore.Op, cleared: Option<string>): AttemptStore.Store {
    var claimed := AttemptStore.Step(s, claim).0;
    match cleared case None => claimed case Some(email) => AttemptStore.ClearAccount(claimed, email)
  }

  lemma AccountClaims(sv: Service, email: string, now: int)
    ensures var claim, op := Claimed(sv, email, now), AttemptStore.Claim(email, now, now);
            && claim.0 == sv.(attempts := AttemptStore.Step(sv.attempts, op).0)
            && claim.1 == AttemptStore.AdmittedOn(op, AttemptStore.Step(sv.attempts, op).1, email)
  {
  }

  lemma AnswerClaims(sv: Service, jti: Jti, now: int)
    requires Sessions.OpenChallenge(sv.world, jti, now)
    ensures var claim, op := ClaimedAnswer(sv, jti, now), AnswerClaim(sv, jti, now)[0];
            && claim.0 == sv.(attempts := AttemptStore.Step(sv.attempts, op).0)
            && claim.1 == AttemptStore.AdmittedOn(op, AttemptStore.Step(sv.attempts, op).1, op.key)
            && op.key == EmailOf(sv, sv.world.tokens.signed[jti].uid)
  {
  }

  /** What the sessions do leaves the attempts alone. */
  lemma ReachedKeepsAttempts(sv: Service, request: Sessions.Request, uid: int, now: int)
    ensures var reached := Reached(sv, request, uid, now);
            && reached.attempts == sv.attempts && reached.emails == sv.emails
            && Succeeded(reached, uid).attempts == AttemptStore.ClearAccount(sv.attempts, EmailOf(sv, uid))
  {
  }

  lemma CodeServed(sv: Service, call: Call, now: int)
    requires call.SendsCode? && Sessions.OpenChallenge(sv.world, call.jti, now)
    ensures Serve(sv, call, now).attempts
         == ClaimedThen(sv.attempts, AnswerClaim(sv, call.jti, now)[0], Cleared(sv, call, now))
  {
    AnswerClaims(sv, call.jti, now);
    ReachedKeepsAttempts(ClaimedAnswer(sv, call.jti, now).0,
                         Sessions.AnswersCode(call.jti, call.matched, call.client, call.ids),
                         sv.world.tokens.signed[call.jti].uid, now);
  }

  lemma PasskeyServed(sv: Service, call: Call, now: int)
    requires call.SendsAssertion? && Sessions.OpenChallenge(sv.world, call.jti, now)
    ensures Serve(sv, call, now).attempts
         == ClaimedThen(sv.attempts, AnswerClaim(sv, call.jti, now)[0], Cleared(sv, call, now))
  {
    var uid := sv.world.tokens.signed[call.jti].uid;
    var tried := ClaimedAnswer(sv, call.jti, now).0.(options := Challenges.SpendSignIn(sv.options, call.jti, uid, now).0);
    AnswerClaims(sv, call.jti, now);
    ReachedKeepsAttempts(tried, Sessions.AnswersPasskey(call.jti, call.asserted, call.advanced, call.client, call.ids), uid, now);
  }

  lemma CodeAttempts(sv: Service, call: Call, now: int)
    requires call.SendsCode?
    ensures AttemptRefinement.After(sv.attempts, OpsOf(sv, call, now)) == Serve(sv, call, now).attempts
  {
    if Sessions.OpenChallenge(sv.world, call.jti, now) {
      CodeServed(sv, call, now);
      AfterClaim(sv.attempts, AnswerClaim(sv, call.jti, now)[0], Cleared(sv, call, now));
    }
  }

  lemma PasskeyAttempts(sv: Service, call: Call, now: int)
    requires call.SendsAssertion?
    ensures AttemptRefinement.After(sv.attempts, OpsOf(sv, call, now)) == Serve(sv, call, now).attempts
  {
    if Sessions.OpenChallenge(sv.world, call.jti, now) {
      PasskeyServed(sv, call, now);
      AfterClaim(sv.attempts, AnswerClaim(sv, call.jti, now)[0], Cleared(sv, call, now));
    }
  }

  lemma ClaimOnlyAttempts(sv: Service, call: Call, now: int)
    requires call.ProvesPassword? || call.ConfirmsPassword? || call.Prepares? || call.TurnsOn? || call.TurnsOff?
    ensures AttemptRefinement.After(sv.attempts, OpsOf(sv, call, now)) == Serve(sv, call, now).attempts
  {
    var claim := ClaimOf(sv, call, now);
    if claim != [] {
      AfterClaim(sv.attempts, claim[0], None);
    }
  }

  lemma OtherAttempts(sv: Service, call: Call, now: int)
    requires call.AsksOptions? || call.Renews? || call.SignsOut? || call.ChangesRole? || call.Sweeps?
    ensures AttemptRefinement.After(sv.attempts, OpsOf(sv, call, now)) == Serve(sv, call, now).attempts
  {
    if call.Sweeps? {
      AfterOne(sv.attempts, AttemptStore.Sweep(now));
    }
  }

  /** A call changes the attempts by its claim and its clearing, and in no other way. */
  lemma AttemptsFollow(sv: Service, call: Call, now: int)
    ensures AttemptRefinement.After(sv.attempts, OpsOf(sv, call, now)) == Serve(sv, call, now).attempts
  {
    match call
    case SignsUp(_, _, _, _) => SignUpAttempts(sv, call, now);
    case SignsIn(_, _, _, _) => SignInAttempts(sv, call, now);
    case SendsCode(_, _, _, _) => CodeAttempts(sv, call, now);
    case SendsAssertion(_, _, _, _, _) => PasskeyAttempts(sv, call, now);
    case ProvesPassword(_, _) => ClaimOnlyAttempts(sv, call, now);
    case ConfirmsPassword(_, _, _) => ClaimOnlyAttempts(sv, call, now);
    case Prepares(_, _, _, _) => ClaimOnlyAttempts(sv, call, now);
    case TurnsOn(_, _, _, _, _) => ClaimOnlyAttempts(sv, call, now);
    case TurnsOff(_, _, _, _, _) => ClaimOnlyAttempts(sv, call, now);
    case _ => OtherAttempts(sv, call, now);
  }

  /** The instants at which the run got to test a secret of the account. */
  function TestedTimes(sv: Service, calls: seq<(Call, int)>, email: string): seq<int>
    decreases |calls|
  {
    if calls == [] then []
    else
      var call, now := calls[0].0, calls[0].1;
      (if MayCall(sv, call, now) && Tests(sv, call, now) == Some(email) then [now] else [])
      + TestedTimes(Next(sv, call, now), calls[1..], email)
  }

  /** No session and no enrolment starts for the account. */
  predicate NeverCleared(sv: Service, calls: seq<(Call, int)>, email: string)
    decreases |calls|
  {
    calls == [] ||
    var call, now := calls[0].0, calls[0].1;
    (MayCall(sv, call, now) ==> Cleared(sv, call, now) != Some(email)) && NeverCleared(Next(sv, call, now), calls[1..], email)
  }

  function AttemptOps(sv: Service, calls: seq<(Call, int)>): seq<AttemptStore.Op>
    decreases |calls|
  {
    if calls == [] then []
    else
      var call, now := calls[0].0, calls[0].1;
      (if MayCall(sv, call, now) then OpsOf(sv, call, now) else []) + AttemptOps(Next(sv, call, now), calls[1..])
  }

  lemma {:induction false} AdmittedConcat(s: AttemptStore.Store, first: seq<AttemptStore.Op>, second: seq<AttemptStore.Op>, key: string)
    ensures AttemptStore.AdmittedTimes(s, first + second, key)
         == AttemptStore.AdmittedTimes(s, first, key)
          + AttemptStore.AdmittedTimes(AttemptRefinement.After(s, first), second, key)
    decreases |first|
  {
    if first == [] {
      assert first + second == second;
    } else {
      assert (first + second)[1..] == first[1..] + second;
      AdmittedConcat(AttemptStore.Step(s, first[0]).0, first[1..], second, key);
    }
  }

  lemma {:induction false} TimedConcat(first: seq<AttemptStore.Op>, second: seq<AttemptStore.Op>, from: int)
    requires AttemptStore.Timed(first, from) && AttemptStore.Timed(second, AttemptRefinement.EndOfRun(first, from))
    ensures AttemptStore.Timed(first + second, from)
    decreases |first|
  {
    if first == [] {
      assert first + second == second;
    } else {
      assert (first + second)[1..] == first[1..] + second && (first + second)[0] == first[0];
      TimedConcat(first[1..], second, AttemptStore.EndOf(first[0], from));
    }
  }

  lemma {:induction false} TimedEarlier(ops: seq<AttemptStore.Op>, from: int, earlier: int)
    requires AttemptStore.Timed(ops, from) && earlier <= from
    ensures AttemptStore.Timed(ops, earlier)
    decreases |ops|
  {
    if ops != [] {
      TimedEarlier(ops[1..], AttemptStore.EndOf(ops[0], from), AttemptStore.EndOf(ops[0], earlier));
    }
  }

  /** The operations of one call: within its instant, admitted exactly when it tests, cleared exactly as said. */
  lemma CallOps(sv: Service, call: Call, now: int, email: string)
    requires MayCall(sv, call, now)
    ensures var ops := OpsOf(sv, call, now);
            && AttemptStore.Timed(ops, sv.clock) && AttemptRefinement.EndOfRun(ops, sv.clock) <= now
            && AttemptStore.AdmittedTimes(sv.attempts, ops, email) == (if Tests(sv, call, now) == Some(email) then [now] else [])
            && (AttemptStore.Clear(email) in ops <==> Cleared(sv, call, now) == Some(email))
  {
    var claim := ClaimOf(sv, call, now);
    assert |claim| <= 1 && (claim != [] ==> claim[0].Claim? || claim[0].Answer?);
    if call.Sweeps? {
      SingleOp(sv.attempts, AttemptStore.Sweep(now), sv.clock, email);
    } else {
      ClaimThenClear(sv.attempts, claim, Cleared(sv, call, now), sv.clock, now, email);
    }
  }

  lemma SingleOp(s: AttemptStore.Store, op: AttemptStore.Op, from: int, email: string)
    requires AttemptStore.Timed([op], from)
    ensures AttemptRefinement.EndOfRun([op], from) == AttemptStore.EndOf(op, from)
    ensures AttemptStore.AdmittedTimes(s, [op], email)
         == if AttemptStore.AdmittedOn(op, AttemptStore.Step(s, op).1, email) then [AttemptStore.EndOf(op, 0)] else []
  {
    assert [op][1..] == [];
  }

  predicate AdmittedBy(s: AttemptStore.Store, claim: seq<AttemptStore.Op>, email: string) {
    claim != [] && AttemptStore.AdmittedOn(claim[0], AttemptStore.Step(s, claim[0]).1, email)
  }

  lemma ClaimThenClear(s: AttemptStore.Store, claim: seq<AttemptStore.Op>, cleared: Option<string>, from: int, now: int, email: string)
    requires |claim| <= 1 && from <= now
    requires claim != [] ==> (claim[0].Claim? || claim[0].Answer?) && claim[0].lockedAt == claim[0].now == now
    ensures var ops := claim + match cleared case None => [] case Some(e) => [AttemptStore.Clear(e)];
            && AttemptStore.Timed(ops, from) && AttemptRefinement.EndOfRun(ops, from) <= now
            && AttemptStore.AdmittedTimes(s, ops, email) == (if AdmittedBy(s, claim, email) then [now] else [])
            && (AttemptStore.Clear(email) in ops <==> cleared == Some(email))
  {
    var clear := match cleared case None => [] case Some(e) => [AttemptStore.Clear(e)];
    if claim != [] {
      SingleOp(s, claim[0], from, email);
      assert claim == [claim[0]];
    }
    if cleared.Some? {
      SingleOp(AttemptRefinement.After(s, claim), clear[0], AttemptRefinement.EndOfRun(claim, from), email);
    }
    AdmittedConcat(s, claim, clear, email);
    TimedConcat(claim, clear, from);
    EndOfConcat(claim, clear, from);
  }

  lemma {:induction false} EndOfConcat(first: seq<AttemptStore.Op>, second: seq<AttemptStore.Op>, from: int)
    ensures AttemptRefinement.EndOfRun(first + second, from)
         == AttemptRefinement.EndOfRun(second, AttemptRefinement.EndOfRun(first, from))
    decreases |first|
  {
    if first == [] {
      assert first + second == second;
    } else {
      assert (first + second)[1..] == first[1..] + second;
      EndOfConcat(first[1..], second, AttemptStore.EndOf(first[0], from));
    }
  }

  lemma {:induction false} RunOps(sv: Service, calls: seq<(Call, int)>, email: string)
    ensures var ops := AttemptOps(sv, calls);
            && AttemptStore.Timed(ops, sv.clock)
            && AttemptStore.AdmittedTimes(sv.attempts, ops, email) == TestedTimes(sv, calls, email)
            && (NeverCleared(sv, calls, email) ==> AttemptStore.Clear(email) !in ops)
    decreases |calls|
  {
    if calls != [] {
      var call, now := calls[0].0, calls[0].1;
      var rest := AttemptOps(Next(sv, call, now), calls[1..]);
      RunOps(Next(sv, call, now), calls[1..], email);
      if MayCall(sv, call, now) {
        var ops := OpsOf(sv, call, now);
        CallOps(sv, call, now, email);
        AttemptsFollow(sv, call, now);
        AdmittedConcat(sv.attempts, ops, rest, email);
        TimedEarlier(rest, now, AttemptRefinement.EndOfRun(ops, sv.clock));
        TimedConcat(ops, rest, sv.clock);
      } else {
        assert [] + rest == rest;
      }
    }
  }

  /**
   Secrets are tested slowly: over every run of the whole service, from any attempts, if no
   session and no enrolment starts for an account, the requests that get to test its password,
   its codes or its passkeys, N in all, take at least 60 N - 597 seconds from first to last.
   */
  lemma SecretsAreTestedSlowly(start: Service, calls: seq<(Call, int)>, email: string)
    requires NeverCleared(start, calls, email)
    ensures var ts := TestedTimes(start, calls, email);
            ts != [] ==> 60 * 1000 * |ts| <= (ts[|ts| - 1] - ts[0]) + 597 * 1000
  {
    RunOps(start, calls, email);
    AttemptStore.GuessRateBound(start.attempts, AttemptOps(start, calls), email, start.clock);
  }

  // ----- and nothing is learnt without a test -----

  /** The two calls are one request with, perhaps, different secrets. */
  predicate SameButSecret(a: Call, b: Call) {
    match (a, b)
    case (SignsIn(email, _, client, ids), SignsIn(email', _, client', ids')) => email == email' && client == client' && ids == ids'
    case (ProvesPassword(email, _), ProvesPassword(email', _)) => email == email'
    case (SendsCode(jti, _, client, ids), SendsCode(jti', _, client', ids')) => jti == jti' && client == client' && ids == ids'
    case (SendsAssertion(jti, _, _, client, ids), SendsAssertion(jti', _, _, client', ids')) =>
      jti == jti' && client == client' && ids == ids'
    case (ConfirmsPassword(jti, uid, _), ConfirmsPassword(jti', uid', _)) => jti == jti' && uid == uid'
    case (Prepares(jti, uid, password, secret), Prepares(jti', uid', password', secret')) =>
      jti == jti' && uid == uid' && secret == secret' && (password == Missing <==> password' == Missing)
    case (TurnsOn(jti, uid, password, _, writes), TurnsOn(jti', uid', password', _, writes')) =>
      jti == jti' && uid == uid' && writes == writes' && (password == Missing <==> password' == Missing)
    case (TurnsOff(jti, uid, _, _, writes), TurnsOff(jti', uid', _, _, writes')) =>
      jti == jti' && uid == uid' && writes == writes'
    case _ => a == b
  }

  lemma EntryUntested(sv: Service, a: Call, b: Call, now: int)
    requires SameButSecret(a, b) && Tests(sv, a, now).None? && a.SignsIn?
    ensures Serve(sv, a, now) == Serve(sv, b, now)
  {
  }

  /** An answer whose claim is not admitted stops at the claim. */
  lemma AnswerRefused(sv: Service, jti: Jti, now: int)
    ensures var claim := AnswerClaim(sv, jti, now);
            Sessions.OpenChallenge(sv.world, jti, now) && !AdmittedBy(sv.attempts, claim, claim[0].key) ==>
              !ClaimedAnswer(sv, jti, now).1
  {
    if Sessions.OpenChallenge(sv.world, jti, now) {
      AnswerClaims(sv, jti, now);
    }
  }

  lemma CodeUntested(sv: Service, a: Call, b: Call, now: int)
    requires SameButSecret(a, b) && Tests(sv, a, now).None? && a.SendsCode?
    ensures Serve(sv, a, now) == Serve(sv, b, now)
  {
    AnswerRefused(sv, a.jti, now);
    if Sessions.OpenChallenge(sv.world, a.jti, now) {
      assert Serve(sv, a, now) == ClaimedAnswer(sv, a.jti, now).0;
      assert Serve(sv, b, now) == ClaimedAnswer(sv, a.jti, now).0;
    }
  }

  lemma AssertionUntested(sv: Service, a: Call, b: Call, now: int)
    requires SameButSecret(a, b) && Tests(sv, a, now).None? && a.SendsAssertion?
    ensures Serve(sv, a, now) == Serve(sv, b, now)
  {
    AnswerRefused(sv, a.jti, now);
    if Sessions.OpenChallenge(sv.world, a.jti, now) {
      assert Serve(sv, a, now) == ClaimedAnswer(sv, a.jti, now).0;
      assert Serve(sv, b, now) == ClaimedAnswer(sv, a.jti, now).0;
    }
  }

  lemma PreparationUntested(sv: Service, a: Call, b: Call, now: int)
    requires SameButSecret(a, b) && Tests(sv, a, now).None? && a.Prepares?
    ensures Serve(sv, a, now) == Serve(sv, b, now)
  {
  }

  lemma SwitchUntested(sv: Service, a: Call, b: Call, now: int)
    requires SameButSecret(a, b) && Tests(sv, a, now).None? && (a.TurnsOn? || a.TurnsOff?)
    ensures Serve(sv, a, now) == Serve(sv, b, now)
  {
  }

  /** A request whose claim is not admitted does the same whatever secret it carries. */
  lemma UntestedSecretsDoNotMatter(sv: Service, a: Call, b: Call, now: int)
    requires SameButSecret(a, b) && Tests(sv, a, now).None?
    ensures Serve(sv, a, now) == Serve(sv, b, now)
  {
    if a.SignsIn? {
      EntryUntested(sv, a, b, now);
    } else if a.SendsCode? {
      CodeUntested(sv, a, b, now);
    } else if a.SendsAssertion? {
      AssertionUntested(sv, a, b, now);
    } else if a.Prepares? {
      PreparationUntested(sv, a, b, now);
    } else if a.TurnsOn? || a.TurnsOff? {
      SwitchUntested(sv, a, b, now);
    }
  }
}

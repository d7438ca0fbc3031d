/** What an answer needs: its own admission for every guess, a right check for every session, open options for a passkey. */
module ChallengeAnswers {
  import AttemptPolicy
  import AttemptRefinement
  import AttemptStore
  import opened Common
  import opened Challenges
  import opened ChallengeRules

  // ----- every guess has its own admission -----

  /** The step looks at an answer to the challenge, right or wrong. */
  predicate Guesses(s: Sys, step: Step, jti: Jti) {
    step.Check? && At(s, step.id, BeforeCheck(s, step.id)) && s.requests[step.id].jti == jti
  }

  function GuessCount(s: Sys, steps: seq<Step>, jti: Jti): nat
    decreases |steps|
  {
    if steps == [] then 0
    else (if Guesses(s, steps[0], jti) then 1 else 0) + GuessCount(Next(s, steps[0]), steps[1..], jti)
  }

  /** The admitted answers to the challenge nobody has looked at yet. */
  function Unchecked(requests: map<int, Request>, jti: Jti): set<int> {
    set id | id in requests && requests[id].jti == jti && requests[id].stage in {Admitted, Spent}
  }

  /** Moving one request moves it alone in or out. */
  lemma UncheckedMove(requests: map<int, Request>, id: int, request: Request, jti: Jti)
    requires id in requests ==> requests[id].jti == request.jti
    ensures var waits := request.jti == jti && request.stage in {Admitted, Spent};
            Unchecked(requests[id := request], jti) == Unchecked(requests, jti) - {id} + if waits then {id} else {}
  {
  }

  lemma UncheckedCount(requests: map<int, Request>, id: int, request: Request, jti: Jti)
    requires id in requests ==> requests[id].jti == request.jti
    ensures var waits := request.jti == jti && request.stage in {Admitted, Spent};
            |Unchecked(requests[id := request], jti)|
            == |Unchecked(requests, jti)| - (if id in Unchecked(requests, jti) then 1 else 0) + if waits then 1 else 0
  {
    UncheckedMove(requests, id, request, jti);
  }

  /** How many more answers wait after the step, and how many more were admitted. */
  ghost predicate Balanced(s: Sys, step: Step, jti: Jti) {
    |Unchecked(Next(s, step).requests, jti)| + (if Guesses(s, step, jti) then 1 else 0) + s.admitted[jti]
    <= |Unchecked(s.requests, jti)| + Next(s, step).admitted[jti]
  }

  lemma AdmitBalances(s: Sys, step: Step, jti: Jti)
    requires step.Admit?
    ensures Balanced(s, step, jti)
  {
    if MayAdmit(s, step.id, step.lockedAt) {
      var stage := if Claim(s, step.id, step.lockedAt).1.ChallengeAdmitted? then Admitted else Over;
      UncheckedCount(s.requests, step.id, s.requests[step.id].(stage := stage), jti);
    }
  }

  lemma SpendBalances(s: Sys, step: Step, jti: Jti)
    requires step.Spend?
    ensures Balanced(s, step, jti)
  {
    if At(s, step.id, Admitted) && s.requests[step.id].kind == Passkey {
      var request := s.requests[step.id];
      var stage := if SpendSignIn(s.open, request.jti, s.signed[request.jti].user, s.clock).1.Some? then Spent else Over;
      UncheckedCount(s.requests, step.id, request.(stage := stage), jti);
    }
  }

  lemma CheckBalances(s: Sys, step: Step, jti: Jti)
    requires step.Check?
    ensures Balanced(s, step, jti)
  {
    if At(s, step.id, BeforeCheck(s, step.id)) {
      UncheckedCount(s.requests, step.id, s.requests[step.id].(stage := if step.right then Checked else Over), jti);
    }
  }

  lemma OutsideBalances(s: Sys, step: Step, jti: Jti)
    requires !IsRequestStep(step)
    ensures Balanced(s, step, jti)
  {
    assert Unchecked(Next(s, step).requests, jti) == Unchecked(s.requests, jti);
  }

  /** A request that does not wait, and goes on not to. */
  lemma PassingBy(s: Sys, id: int, stage: Stage, jti: Jti)
    requires id in s.requests && s.requests[id].stage !in {Admitted, Spent} && stage !in {Admitted, Spent}
    ensures Unchecked(Moved(s, id, stage).requests, jti) == Unchecked(s.requests, jti)
  {
    UncheckedMove(s.requests, id, s.requests[id].(stage := stage), jti);
  }

  lemma IssueBalances(s: Sys, step: Step, jti: Jti)
    requires step.Issue? || step.Start?
    ensures Balanced(s, step, jti)
  {
    if At(s, step.id, Opened) || At(s, step.id, Cleared) {
      PassingBy(s, step.id, Over, jti);
    }
  }

  lemma ConsumeBalances(s: Sys, step: Step, jti: Jti)
    requires step.Consume?
    ensures Balanced(s, step, jti)
  {
    if At(s, step.id, Checked) {
      PassingBy(s, step.id, if s.requests[step.id].jti in s.tombstones then Over else Consumed, jti);
    }
  }

  lemma AdvanceBalances(s: Sys, step: Step, jti: Jti)
    requires step.Advance? || step.Clear?
    ensures Balanced(s, step, jti)
  {
    if step.Advance? && At(s, step.id, Consumed) {
      PassingBy(s, step.id, if step.advanced then Advanced else Over, jti);
    } else if step.Clear? && At(s, step.id, Advanced) {
      PassingBy(s, step.id, Cleared, jti);
    }
  }

  lemma StepBalances(s: Sys, step: Step, jti: Jti)
    ensures Balanced(s, step, jti)
  {
    if !IsRequestStep(step) {
      OutsideBalances(s, step, jti);
    } else if step.Admit? {
      AdmitBalances(s, step, jti);
    } else if step.Spend? {
      SpendBalances(s, step, jti);
    } else if step.Check? {
      CheckBalances(s, step, jti);
    } else if step.Consume? {
      ConsumeBalances(s, step, jti);
    } else if step.Advance? || step.Clear? {
      AdvanceBalances(s, step, jti);
    } else {
      IssueBalances(s, step, jti);
    }
  }

  lemma {:induction false} GuessesBalance(s: Sys, steps: seq<Step>, jti: Jti)
    ensures GuessCount(s, steps, jti) + s.admitted[jti] <= |Unchecked(s.requests, jti)| + Run(s, steps).admitted[jti]
    decreases |steps|
  {
    if steps != [] {
      StepBalances(s, steps[0], jti);
      GuessesBalance(Next(s, steps[0]), steps[1..], jti);
    }
  }

  /**
   No guess without an admission: over every interleaving a challenge's answers are looked at no
   more often than answers to it were admitted, and so at most five times when every request
   claims and consumes before its challenge's expiry.
   */
  lemma GuessesWithinAdmissions(start: Sys, steps: seq<Step>, jti: Jti)
    requires Initial(start)
    ensures GuessCount(start, steps, jti) <= Run(start, steps).admitted[jti]
    ensures Punctual(start, steps) ==> GuessCount(start, steps, jti) <= 5
  {
    assert Unchecked(start.requests, jti) == {};
    GuessesBalance(start, steps, jti);
    if Punctual(start, steps) {
      OneChallengeOneSession(start, steps, jti);
    }
  }

  // ----- every session has a right check -----

  lemma RunLastStep(s: Sys, steps: seq<Step>)
    requires steps != []
    ensures Run(s, steps) == Next(Run(s, steps[..|steps| - 1]), steps[|steps| - 1])
  {
    var k := |steps| - 1;
    assert steps == steps[..k] + [steps[k]];
    RunConcat(s, steps[..k], [steps[k]]);
    assert [steps[k]][1..] == [];
  }

  /** Past the check. */
  predicate Proved(requests: map<int, Request>, id: int, jti: Jti) {
    id in requests && requests[id].jti == jti && requests[id].stage in {Checked, Consumed, Advanced, Cleared}
  }

  /** Past the advance of the passkey's counter, which a code always passes. */
  predicate PastAdvance(requests: map<int, Request>, id: int, jti: Jti) {
    id in requests && requests[id].jti == jti && requests[id].stage in {Advanced, Cleared}
  }

  /** What happens outside the requests moves none of them; a new one has proved nothing. */
  lemma OutsideMovesNothing(s: Sys, step: Step, id: int)
    requires !IsRequestStep(step) && id in Next(s, step).requests
    ensures (id in s.requests && Next(s, step).requests[id] == s.requests[id]) || Next(s, step).requests[id].stage == Opened
  {
  }

  lemma AdmissionProvesNothing(s: Sys, step: Step, id: int, jti: Jti)
    requires step.Admit? && Proved(Next(s, step).requests, id, jti)
    ensures Proved(s.requests, id, jti) && Next(s, step).requests[id] == s.requests[id]
  {
  }

  lemma OptionsProveNothing(s: Sys, step: Step, id: int, jti: Jti)
    requires step.Issue? || step.Spend?
    requires Proved(Next(s, step).requests, id, jti)
    ensures Proved(s.requests, id, jti) && Next(s, step).requests[id] == s.requests[id]
  {
  }

  lemma LateStepsProveNothing(s: Sys, step: Step, id: int, jti: Jti)
    requires step.Consume? || step.Advance? || step.Clear? || step.Start?
    requires Proved(Next(s, step).requests, id, jti)
    ensures Proved(s.requests, id, jti)
  {
  }

  lemma OnlyRightChecksProve(s: Sys, step: Step, id: int, jti: Jti)
    requires Proved(Next(s, step).requests, id, jti)
    ensures Proved(s.requests, id, jti) || (step == Check(id, true) && Guesses(s, step, jti))
  {
    if !IsRequestStep(step) {
      OutsideMovesNothing(s, step, id);
    } else if step.Admit? {
      AdmissionProvesNothing(s, step, id, jti);
    } else if step.Issue? || step.Spend? {
      OptionsProveNothing(s, step, id, jti);
    } else if !step.Check? {
      LateStepsProveNothing(s, step, id, jti);
    }
  }

  lemma LateStepsAdvance(s: Sys, step: Step, id: int, jti: Jti)
    requires step.Consume? || step.Advance? || step.Clear? || step.Start?
    requires PastAdvance(Next(s, step).requests, id, jti)
    ensures PastAdvance(s.requests, id, jti) || (step == Advance(id, true) && At(s, id, Consumed) && s.requests[id].jti == jti)
  {
  }

  lemma CheckAdvancesNothing(s: Sys, step: Step, id: int, jti: Jti)
    requires step.Check? && PastAdvance(Next(s, step).requests, id, jti)
    ensures PastAdvance(s.requests, id, jti)
  {
  }

  lemma OnlyAdvancesAdvance(s: Sys, step: Step, id: int, jti: Jti)
    requires PastAdvance(Next(s, step).requests, id, jti)
    ensures PastAdvance(s.requests, id, jti) || (step == Advance(id, true) && At(s, id, Consumed) && s.requests[id].jti == jti)
  {
    if !IsRequestStep(step) {
      OutsideMovesNothing(s, step, id);
    } else if step.Admit? {
      AdmissionProvesNothing(s, step, id, jti);
    } else if step.Issue? || step.Spend? {
      OptionsProveNothing(s, step, id, jti);
    } else if step.Check? {
      CheckAdvancesNothing(s, step, id, jti);
    } else {
      LateStepsAdvance(s, step, id, jti);
    }
  }

  lemma {:induction false} ProvedWasChecked(start: Sys, steps: seq<Step>, id: int, jti: Jti) returns (k: nat)
    requires Initial(start) && Proved(Run(start, steps).requests, id, jti)
    ensures k < |steps| && steps[k] == Check(id, true) && Guesses(Run(start, steps[..k]), steps[k], jti)
    decreases |steps|
  {
    if steps == [] {
      assert false;
    } else {
      k := |steps| - 1;
      var last := k;
      RunLastStep(start, steps);
      OnlyRightChecksProve(Run(start, steps[..last]), steps[last], id, jti);
      if Proved(Run(start, steps[..last]).requests, id, jti) {
        k := ProvedWasChecked(start, steps[..last], id, jti);
        assert steps[..last][..k] == steps[..k];
      }
    }
  }

  lemma {:induction false} AdvancedWasChecked(start: Sys, steps: seq<Step>, id: int, jti: Jti) returns (k: nat, m: nat)
    requires Initial(start) && PastAdvance(Run(start, steps).requests, id, jti)
    ensures k < m < |steps| && steps[k] == Check(id, true) && Guesses(Run(start, steps[..k]), steps[k], jti)
    ensures steps[m] == Advance(id, true)
    decreases |steps|
  {
    if steps == [] {
      assert false;
    } else {
      m := |steps| - 1;
      var last := m;
      RunLastStep(start, steps);
      OnlyAdvancesAdvance(Run(start, steps[..last]), steps[last], id, jti);
      if PastAdvance(Run(start, steps[..last]).requests, id, jti) {
        k, m := AdvancedWasChecked(start, steps[..last], id, jti);
      } else {
        k := ProvedWasChecked(start, steps[..last], id, jti);
      }
      assert steps[..last][..k] == steps[..k];
    }
  }

  lemma OnlyStartsStart(s: Sys, step: Step, jti: Jti)
    requires Next(s, step).sessions[jti] != s.sessions[jti]
    ensures step.Start? && At(s, step.id, Cleared) && s.requests[step.id].jti == jti
  {
  }

  /** The request answers the challenge: a code that was admitted, or a passkey whose options were spent. */
  predicate Answerable(s: Sys, id: int, jti: Jti) {
    && id in s.requests && s.requests[id].jti == jti
    && s.requests[id].stage == if s.requests[id].kind == Code then Admitted else Spent
  }

  /** The last step started a session. */
  lemma StartedWasProved(start: Sys, steps: seq<Step>, last: nat, jti: Jti) returns (id: int, k: nat, m: nat)
    requires Initial(start) && last < |steps|
    requires var s := Run(start, steps[..last]); Next(s, steps[last]).sessions[jti] != s.sessions[jti]
    ensures k < m < last && steps[k] == Check(id, true) && steps[m] == Advance(id, true)
    ensures Guesses(Run(start, steps[..k]), steps[k], jti)
  {
    OnlyStartsStart(Run(start, steps[..last]), steps[last], jti);
    id := steps[last].id;
    k, m := AdvancedWasChecked(start, steps[..last], id, jti);
    assert steps[..last][..k] == steps[..k];
  }

  /**
   No session without proof: over every interleaving, a challenge that started a session was
   answered by a request whose answer was found right (a code once admitted, a passkey once its
   options were spent) and whose counter then advanced.
   */
  lemma {:induction false} EverySessionWasProved(start: Sys, steps: seq<Step>, jti: Jti) returns (id: int, k: nat, m: nat)
    requires Initial(start) && Run(start, steps).sessions[jti] > 0
    ensures k < m < |steps| && steps[k] == Check(id, true) && steps[m] == Advance(id, true)
    ensures Answerable(Run(start, steps[..k]), id, jti)
    decreases |steps|
  {
    if steps == [] {
      assert false;
    } else {
      var last := |steps| - 1;
      RunLastStep(start, steps);
      if Run(start, steps[..last]).sessions[jti] > 0 {
        id, k, m := EverySessionWasProved(start, steps[..last], jti);
        assert steps[..last][..k] == steps[..k];
      } else {
        id, k, m := StartedWasProved(start, steps, last, jti);
      }
    }
  }

  /** Before its session starts, a right answer makes the account's next attempt a first one, and no other account's. */
  lemma RightAnswerForgetsAttempts(s: Sys, id: int, other: string, lockedAt: int, now: int)
    requires At(s, id, Advanced) && lockedAt <= now
    ensures var t, account := Next(s, Clear(id)), s.signed[s.requests[id].jti].account;
            && t.requests[id].stage == Cleared
            && AttemptStore.ClaimAccount(t.attempts, account, lockedAt, now).1 == AttemptPolicy.Admitted(1, now)
            && (other != account ==>
                  AttemptStore.ClaimAccount(t.attempts, other, lockedAt, now).1
                  == AttemptStore.ClaimAccount(s.attempts, other, lockedAt, now).1)
  {
    AttemptRefinement.ClearedStartsAfresh(s.attempts, s.signed[s.requests[id].jti].account, other, lockedAt, now);
  }

  // ----- every request opened a live challenge -----

  predicate SameRequest(s: Sys, t: Sys, id: int) {
    id in s.requests && id in t.requests && t.requests[id].jti == s.requests[id].jti && t.requests[id].kind == s.requests[id].kind
  }

  /** The challenge may be opened: signed, before its expiry to the millisecond, and not answered yet. */
  predicate Live(s: Sys, jti: Jti) {
    jti in s.signed && s.clock < s.signed[jti].exp * 1000 && jti !in s.tombstones
  }

  lemma AdmitKeepsRequest(s: Sys, step: Step, id: int)
    requires step.Admit? && id in Next(s, step).requests
    ensures SameRequest(s, Next(s, step), id)
  {
  }

  lemma OptionsKeepRequest(s: Sys, step: Step, id: int)
    requires (step.Issue? || step.Spend?) && id in Next(s, step).requests
    ensures SameRequest(s, Next(s, step), id)
  {
  }

  lemma CheckKeepsRequest(s: Sys, step: Step, id: int)
    requires (step.Check? || step.Consume?) && id in Next(s, step).requests
    ensures SameRequest(s, Next(s, step), id)
  {
  }

  lemma FinishKeepsRequest(s: Sys, step: Step, id: int)
    requires (step.Advance? || step.Clear? || step.Start?) && id in Next(s, step).requests
    ensures SameRequest(s, Next(s, step), id)
  {
  }

  lemma OutsideOpensLive(s: Sys, step: Step, id: int)
    requires !IsRequestStep(step) && id in Next(s, step).requests
    ensures SameRequest(s, Next(s, step), id)
         || (step.Open? && step.id == id && Live(s, step.jti) && Next(s, step).requests[id] == Request(step.jti, step.kind, Opened))
  {
  }

  lemma RequestsOpenLive(s: Sys, step: Step, id: int)
    requires id in Next(s, step).requests
    ensures SameRequest(s, Next(s, step), id)
         || (step.Open? && step.id == id && Live(s, step.jti) && Next(s, step).requests[id] == Request(step.jti, step.kind, Opened))
  {
    if step.Admit? {
      AdmitKeepsRequest(s, step, id);
    } else if step.Issue? || step.Spend? {
      OptionsKeepRequest(s, step, id);
    } else if step.Check? || step.Consume? {
      CheckKeepsRequest(s, step, id);
    } else if IsRequestStep(step) {
      FinishKeepsRequest(s, step, id);
    } else {
      OutsideOpensLive(s, step, id);
    }
  }

  /** Over every interleaving each request opened its challenge while that was signed, unexpired and unanswered. */
  lemma {:induction false} EveryRequestOpenedLive(start: Sys, steps: seq<Step>, id: int) returns (k: nat)
    requires Initial(start) && id in Run(start, steps).requests
    ensures var request := Run(start, steps).requests[id];
            && k < |steps| && steps[k] == Open(id, request.jti, request.kind)
            && Live(Run(start, steps[..k]), request.jti)
    decreases |steps|
  {
    if steps == [] {
      assert false;
    } else {
      k := |steps| - 1;
      var last := k;
      RunLastStep(start, steps);
      RequestsOpenLive(Run(start, steps[..last]), steps[last], id);
      if SameRequest(Run(start, steps[..last]), Run(start, steps), id) {
        k := EveryRequestOpenedLive(start, steps[..last], id);
        assert steps[..last][..k] == steps[..k];
      }
    }
  }

  // ----- options stay open two minutes -----

  /** The step issues or spends options of the challenge. */
  predicate Touches(s: Sys, step: Step, jti: Jti) {
    (step.Issue? || step.Spend?) && step.id in s.requests && s.requests[step.id].jti == jti
  }

  predicate NeverTouches(s: Sys, steps: seq<Step>, jti: Jti)
    decreases |steps|
  {
    steps == [] || (!Touches(s, steps[0], jti) && NeverTouches(Next(s, steps[0]), steps[1..], jti))
  }

  /** The answer a spend would get at `now`. */
  function Spending(s: Sys, jti: Jti, user: int, now: int): Option<string> {
    SpendSignIn(s.open, jti, user, now).1
  }

  lemma UntouchedStep(s: Sys, step: Step, jti: Jti, user: int, now: int)
    requires !Touches(s, step, jti) && s.clock <= now
    ensures Spending(Next(s, step), jti, user, now) == Spending(s, jti, user, now)
  {
    if step.SweepOptions? {
      SweptOptionsWereClosed(s.open, s.clock, jti, user, now);
    } else if !step.Issue? && !step.Spend? {
      OthersKeepOptions(s, step);
    }
  }

  lemma AnswersKeepOptions(s: Sys, step: Step)
    requires IsRequestStep(step) && !step.Admit? && !step.Issue? && !step.Spend?
    ensures Next(s, step).open == s.open
  {
  }

  lemma AdmissionKeepsOptions(s: Sys, step: Step)
    requires step.Admit?
    ensures Next(s, step).open == s.open
  {
  }

  lemma OthersKeepOptions(s: Sys, step: Step)
    requires !step.SweepOptions? && !step.Issue? && !step.Spend?
    ensures Next(s, step).open == s.open
  {
    if step.Admit? {
      AdmissionKeepsOptions(s, step);
    } else if IsRequestStep(step) {
      AnswersKeepOptions(s, step);
    }
  }

  lemma ClockAdvances(s: Sys, step: Step)
    ensures s.clock <= Next(s, step).clock
  {
  }

  lemma {:induction false} ClockRuns(s: Sys, steps: seq<Step>)
    ensures s.clock <= Run(s, steps).clock
    decreases |steps|
  {
    if steps != [] {
      ClockAdvances(s, steps[0]);
      ClockRuns(Next(s, steps[0]), steps[1..]);
    }
  }

  lemma {:induction false} UntouchedRun(s: Sys, steps: seq<Step>, jti: Jti, user: int)
    requires NeverTouches(s, steps, jti)
    ensures var now := Run(s, steps).clock;
            Spending(Run(s, steps), jti, user, now) == Spending(s, jti, user, now)
    decreases |steps|
  {
    if steps != [] {
      ClockRuns(s, steps);
      UntouchedStep(s, steps[0], jti, user, Run(s, steps).clock);
      UntouchedRun(Next(s, steps[0]), steps[1..], jti, user);
    }
  }

  /**
   Options last two minutes: over every interleaving that neither replaces nor spends them, options
   given to a request are spent with their own nonce, by their own user and nobody else, exactly
   up to 120 seconds after, whatever was swept or answered in between.
   */
  lemma OptionsLastTwoMinutes(s: Sys, id: int, nonce: string, steps: seq<Step>, user: int)
    requires At(s, id, Opened) && s.requests[id].kind == Asking
    requires MayIssue(s.open, s.requests[id].jti, s.signed[s.requests[id].jti].user)
    requires NeverTouches(Next(s, Issue(id, nonce)), steps, s.requests[id].jti)
    ensures var t, jti := Run(Next(s, Issue(id, nonce)), steps), s.requests[id].jti;
            SpendSignIn(t.open, jti, user, t.clock).1
            == if user == s.signed[jti].user && t.clock < s.clock + 120_000 then Some(nonce) else None
  {
    var issued := Next(s, Issue(id, nonce));
    UntouchedRun(issued, steps, s.requests[id].jti, user);
  }
}

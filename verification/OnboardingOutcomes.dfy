/** What an application becomes: the merchant an approval leaves, and the courier the fleet answers for. */
module OnboardingOutcomes {
  import opened Accounts
  import opened Common
  import opened Onboarding

  /** The account's principal, or the one drawn for it. */
  function PrincipalFor(a: Account, drawn: string): string {
    if a.principal.Some? then a.principal.value.id else drawn
  }

  // ----- the seller's form -----

  /** The step puts a new form before the administrators. */
  predicate GivesForm(a: Account, step: Step) {
    && step.Onboards? && (a.role == Customer || a.role == Seller)
    && !(a.verification.Some? && a.verification.value.status == Approved)
  }

  lemma ApprovalKeepsForm(a: Account, draw: Draw, writes: nat)
    requires a.verification.Some?
    ensures var b := ApproveSeller(a, draw, writes);
            b.verification.Some? && b.verification.value.form == a.verification.value.form
  {
  }

  lemma FormStep(a: Account, step: Step)
    ensures GivesForm(a, step) ==> Next(a, step).verification.Some? && Next(a, step).verification.value.form == step.form
    ensures !GivesForm(a, step) ==>
              && (Next(a, step).verification.Some? <==> a.verification.Some?)
              && (a.verification.Some? ==> Next(a, step).verification.value.form == a.verification.value.form)
  {
    if step.ApprovesSeller? {
      if a.verification.Some? {
        ApprovalKeepsForm(a, step.draw, step.writes);
      }
    } else if step.ApprovesCourier? {
      CourierLeavesSeller(a, step.answer, step.writes);
    }
  }

  /** The form last given in a run that starts with `form`. */
  function LastForm(a: Account, steps: seq<Step>, form: Option<Form>): Option<Form>
    decreases |steps|
  {
    if steps == [] then form
    else LastForm(Next(a, steps[0]), steps[1..], if GivesForm(a, steps[0]) then Some(steps[0].form) else form)
  }

  function FormOf(a: Account): Option<Form> {
    if a.verification.Some? then Some(a.verification.value.form) else None
  }

  /** Over every run the application shows the form the account gave last, whoever decided what since. */
  lemma {:induction false} ApplicationShowsLastForm(a: Account, steps: seq<Step>)
    ensures FormOf(Run(a, steps)) == LastForm(a, steps, FormOf(a))
    decreases |steps|
  {
    if steps != [] {
      FormStep(a, steps[0]);
      ApplicationShowsLastForm(Next(a, steps[0]), steps[1..]);
    }
  }

  // ----- the merchant -----

  /** The merchant an approval saves: a new one is the form's, one that exists only moves and is verified again. */
  ghost predicate MerchantFrom(before: Option<Merchant>, form: Form, draw: Draw, m: Merchant) {
    && m.status == MerchantVerified && m.verifiedAt == draw.at && m.location == draw.location && m.address == form.address
    && (before.None? ==> m.id == draw.merchantId && m.slug == draw.slug && m.storeName == form.storeName && m.legal == form.legal)
    && (before.Some? ==> m.id == before.value.id && m.slug == before.value.slug
                         && m.storeName == before.value.storeName && m.legal == before.value.legal)
  }

  /** An application may be approved: it pends, its account may sell, and its merchant is not active or suspended. */
  predicate Approvable(a: Account) {
    && a.verification.Some? && a.verification.value.status == Pending
    && (a.role == Customer || a.role == Seller)
    && (a.merchant.Some? ==> a.merchant.value.status == MerchantPending || a.merchant.value.status == MerchantVerified)
  }

  lemma FinishKeepsMerchant(a: Account, draw: Draw, writes: nat)
    requires a.verification.Some? && a.merchant.Some?
    ensures FinishSeller(a, draw, writes).merchant == a.merchant
  {
  }

  /** From the first write on, an approval has saved the merchant; one that may not happen changes nothing. */
  lemma ApprovalSavesMerchant(a: Account, draw: Draw, writes: nat)
    ensures var b := ApproveSeller(a, draw, writes);
            if Approvable(a) && writes >= 1
            then b.merchant.Some? && MerchantFrom(a.merchant, a.verification.value.form, draw, b.merchant.value)
            else b == a
  {
    if MayApproveSeller(a) && writes >= 2 {
      FinishKeepsMerchant(SaveRole(SaveMerchant(a, draw), Seller), draw, writes - 2);
    }
  }

  lemma FinishOutcome(a: Account, draw: Draw, writes: nat)
    requires a.verification.Some? && a.merchant.Some? && writes >= 4 && a.role == Seller
    requires a.merchant.value.id in a.aliases ==> PrincipalIdOf(a) == Some(a.aliases[a.merchant.value.id])
    ensures var b := FinishSeller(a, draw, writes);
            && b.role == Seller && b.merchant == a.merchant
            && b.verification == Some(Verification(a.verification.value.form, Approved, draw.at))
            && b.principal == Some(Identity(PrincipalFor(a, draw.principal), MerchantKind))
            && b.aliases == a.aliases[a.merchant.value.id := PrincipalFor(a, draw.principal)]
  {
    if a.merchant.value.id in a.aliases {
      assert a.aliases == a.aliases[a.merchant.value.id := a.aliases[a.merchant.value.id]];
    }
  }

  /**
   A whole approval of a reachable account: it is a seller, its principal shows a merchant, its
   merchant is the form's (or its own, moved) and stands for its principal, and the application
   says verified, at that instant and for that form.
   */
  lemma WholeSellerApproval(start: Account, steps: seq<Step>, draw: Draw, writes: nat)
    requires Initial(start) && writes >= ALL_WRITES
    requires Approvable(Run(start, steps)) && draw.merchantId !in Run(start, steps).aliases
    ensures var a := Run(start, steps);
            var b, form := Next(a, ApprovesSeller(draw, writes)), a.verification.value.form;
            && FormOf(a) == LastForm(start, steps, None)
            && b.merchant.Some? && MerchantFrom(a.merchant, form, draw, b.merchant.value)
            && b.role == Seller && b.verification == Some(Verification(form, Approved, draw.at))
            && b.principal == Some(Identity(PrincipalFor(a, draw.principal), MerchantKind))
            && b.aliases == a.aliases[b.merchant.value.id := b.principal.value.id]
  {
    var a := Run(start, steps);
    RunKeepsInv(start, steps);
    ApplicationShowsLastForm(start, steps);
    ApprovalSavesMerchant(a, draw, writes);
    FinishOutcome(SaveRole(SaveMerchant(a, draw), Seller), draw, writes - 2);
  }

  /** A merchant whose alias stands for another principal is never verified for this one, and the alias stays. */
  lemma ForeignAliasStopsApproval(a: Account, draw: Draw, writes: nat)
    requires a.merchant.Some? && a.merchant.value.id in a.aliases
    requires a.aliases[a.merchant.value.id] != PrincipalFor(a, draw.principal)
    ensures var b := ApproveSeller(a, draw, writes);
            b.verification == a.verification && b.aliases == a.aliases
  {
    if MayApproveSeller(a) && writes >= 2 {
      ForeignAliasStopsFinish(SaveRole(SaveMerchant(a, draw), Seller), draw, writes - 2);
    }
  }

  lemma ForeignAliasStopsFinish(a: Account, draw: Draw, writes: nat)
    requires a.verification.Some? && a.merchant.Some? && a.merchant.value.id in a.aliases
    requires a.aliases[a.merchant.value.id] != PrincipalFor(a, draw.principal)
    ensures var b := FinishSeller(a, draw, writes);
            b.verification == a.verification && b.aliases == a.aliases
  {
  }

  /** Every other step leaves the merchant alone. */
  lemma MerchantStep(a: Account, step: Step)
    ensures !step.ApprovesSeller? ==> Next(a, step).merchant == a.merchant
    ensures step.ApprovesSeller? && Next(a, step).merchant != a.merchant ==>
              Approvable(a) && Next(a, step).merchant.Some?
              && MerchantFrom(a.merchant, a.verification.value.form, step.draw, Next(a, step).merchant.value)
  {
    if step.ApprovesSeller? {
      ApprovalSavesMerchant(a, step.draw, step.writes);
    } else if step.ApprovesCourier? {
      CourierLeavesSeller(a, step.answer, step.writes);
    }
  }

  lemma {:induction false} RunLast(a: Account, steps: seq<Step>)
    requires steps != []
    ensures Run(a, steps) == Next(Run(a, steps[..|steps| - 1]), steps[|steps| - 1])
    decreases |steps|
  {
    var k := |steps| - 1;
    if k > 0 {
      RunLast(Next(a, steps[0]), steps[1..]);
      assert steps[1..][..k - 1] == steps[..k][1..];
    } else {
      assert steps[1..] == [] && steps[..k] == [];
    }
  }

  /**
   Where a merchant comes from: over every run its name, legal data, slug and id are of the form
   and the draw of the approval `made` that first saved it, for good; its address, place and
   instant are of the approval `moved` that saved it last.
   */
  lemma {:induction false} EveryMerchantWasApproved(start: Account, steps: seq<Step>) returns (made: nat, moved: nat)
    requires Initial(start) && Run(start, steps).merchant.Some?
    ensures made <= moved < |steps| && steps[made].ApprovesSeller? && steps[moved].ApprovesSeller?
    ensures var m, a := Run(start, steps).merchant.value, Run(start, steps[..made]);
            && a.merchant.None? && Approvable(a)
            && MerchantFrom(None, a.verification.value.form, steps[made].draw,
                            m.(address := a.verification.value.form.address, location := steps[made].draw.location,
                               verifiedAt := steps[made].draw.at))
    ensures var m, a := Run(start, steps).merchant.value, Run(start, steps[..moved]);
            Approvable(a) && MerchantFrom(Some(m), a.verification.value.form, steps[moved].draw, m)
    decreases |steps|
  {
    if steps == [] {
      assert false;
    } else {
      var k := |steps| - 1;
      RunLast(start, steps);
      var a := Run(start, steps[..k]);
      MerchantStep(a, steps[k]);
      if a.merchant.None? {
        made, moved := k, k;
      } else {
        made, moved := EveryMerchantWasApproved(start, steps[..k]);
        assert steps[..k][..made] == steps[..made] && steps[..k][..moved] == steps[..moved];
        if Run(start, steps).merchant != a.merchant {
          moved := k;
        }
      }
    }
  }

  // ----- the courier -----

  /** A courier application may be approved, told from the account. */
  predicate CourierApprovable(a: Account) {
    a.principal.Some? && a.application != Some(Rejected) && (a.role == Customer || a.role == Courier)
  }

  /**
   A whole courier approval, by what the fleet answers: active and approved, or waiting on the
   fleet as a courier, or, where the fleet did nothing, a customer again (a courier stays one).
   The kind a promoted or restored account shows is that of its role.
   */
  lemma WholeCourierApproval(a: Account, answer: FleetAnswer, writes: nat)
    requires writes >= 5
    ensures var b := ApproveCourier(a, answer, writes);
            if !CourierApprovable(a) then b == a
            else
              && b.principal.Some? && b.principal.value.id == a.principal.value.id
              && (a.role == Courier ==> b.role == Courier && b.principal == a.principal)
              && match answer
                 case Activated =>
                   b.role == Courier && b.fleetActive && b.fleetPending == a.fleetPending && b.application == Some(Approved)
                   && (a.role == Customer ==> b.principal.value.kind == DriverKind)
                 case FleetUnknown =>
                   b.role == Courier && b.fleetActive == a.fleetActive && b.fleetPending && b.application == a.application
                   && (a.role == Customer ==> b.principal.value.kind == DriverKind)
                 case _ =>
                   b.role == a.role && b.fleetActive == a.fleetActive && b.fleetPending == a.fleetPending
                   && b.application == a.application && (a.role == Customer ==> b.principal.value.kind == CustomerKind)
  {
  }

  /** Filing signs the account in and puts the application up; one that pends or is approved is left as it is. */
  lemma FilingOutcome(a: Account, principal: string)
    ensures var b := FileCourier(a, principal);
            if a.role != Customer && a.role != Courier then b == a
            else
              && b == a.(principal := b.principal, application := b.application)
              && b.principal == Some(Identity(PrincipalFor(a, principal), if a.role == Customer then CustomerKind else DriverKind))
              && b.application == (if a.application.None? || a.application.value == Rejected then Some(Pending) else a.application)
  {
  }

  // ----- rejections -----

  lemma {:induction false} AlwaysHoldsLast(a: Account, steps: seq<Step>, verification: Option<Verification>)
    requires AlwaysVerification(a, steps, verification)
    ensures Run(a, steps).verification == verification
    decreases |steps|
  {
    if steps != [] {
      AlwaysHoldsLast(Next(a, steps[0]), steps[1..], verification);
    }
  }

  lemma {:induction false} AlwaysRejectedLast(a: Account, steps: seq<Step>)
    requires AlwaysRejected(a, steps)
    ensures Run(a, steps).application == Some(Rejected)
    decreases |steps|
  {
    if steps != [] {
      AlwaysRejectedLast(Next(a, steps[0]), steps[1..]);
    }
  }

  /** The rejection of a pending seller application stands, with the form last given and its instant, until the account onboards anew. */
  lemma SellerRejectionStands(start: Account, before: seq<Step>, at: int, after: seq<Step>)
    requires Initial(start)
    requires var a := Run(start, before); a.verification.Some? && a.verification.value.status == Pending
    requires NeverOnboardsAnew(Next(Run(start, before), RejectsSeller(at)), after)
    ensures var b := Run(Next(Run(start, before), RejectsSeller(at)), after);
            && b.verification.Some? && b.verification.value.status == Rejected && b.verification.value.decidedAt == at
            && FormOf(b) == LastForm(start, before, None)
  {
    var rejected := Next(Run(start, before), RejectsSeller(at));
    ApplicationShowsLastForm(start, before);
    SellerRejectedUntilOnboarded(rejected, after);
    AlwaysHoldsLast(rejected, after, rejected.verification);
  }

  /** The rejection of a pending courier application stands, and makes no courier, until the account files anew. */
  lemma CourierRejectionStands(start: Account, before: seq<Step>, after: seq<Step>)
    requires Initial(start)
    requires var a := Run(start, before); a.application == Some(Pending) && a.principal.Some? && a.role != Courier
    requires NeverFilesAnew(Next(Run(start, before), RejectsCourier), after)
    ensures var b := Run(Next(Run(start, before), RejectsCourier), after);
            b.application == Some(Rejected) && b.role != Courier && !b.fleetActive
  {
    var rejected := Next(Run(start, before), RejectsCourier);
    RunKeepsInv(start, before);
    CourierStep(Run(start, before), RejectsCourier);
    SellerStep(Run(start, before), RejectsCourier);
    RunKeepsInv(rejected, after);
    RejectedUntilFiled(rejected, after);
    AlwaysRejectedLast(rejected, after);
  }
}

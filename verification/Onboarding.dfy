/**
 Becoming a courier or a seller. One account, its applications, its merchant and its row in
 the external fleet. An approval is a sequence of separate writes, and the process may stop
 after any of them; the fleet answers, refuses, fails, or leaves it unknown what it did.
 */
module Onboarding {
  import opened Accounts
  import opened Common

  datatype Decision = Pending | Approved | Rejected

  datatype MerchantStatus = MerchantPending | MerchantVerified | MerchantActive | MerchantSuspended

  datatype Form = Form(storeName: string, legal: string, address: string)

  datatype Merchant = Merchant(id: int, storeName: string, slug: string, legal: string, status: MerchantStatus,
                               verifiedAt: int, address: string, location: Option<string>)

  datatype Verification = Verification(form: Form, status: Decision, decidedAt: int)

  /** A principal: its id, and the kind it shows. */
  datatype Identity = Identity(id: string, kind: Kind)

  /**
   One account. `principal` is its identity alias, `aliases` its merchant aliases by merchant
   id. `fleetPending` is a call whose effect on the fleet is not known yet.
   */
  datatype Account = Account(role: Role, principal: Option<Identity>,
                             verification: Option<Verification>, merchant: Option<Merchant>, aliases: map<int, string>,
                             application: Option<Decision>, fleetActive: bool, fleetPending: bool)

  function PrincipalIdOf(a: Account): Option<string> {
    if a.principal.Some? then Some(a.principal.value.id) else None
  }

  // ----- writes -----

  function SaveRole(a: Account, role: Role): Account {
    a.(role := role)
  }

  function SyncKind(a: Account): Account {
    if a.principal.Some? then a.(principal := Some(a.principal.value.(kind := PrincipalKindForRole(a.role)))) else a
  }

  function ResolveOrMint(a: Account, principal: string): Account {
    if a.principal.Some? then a else a.(principal := Some(Identity(principal, PrincipalKindForRole(a.role))))
  }

  function RecordFiled(a: Account): Account {
    if a.application.None? || a.application == Some(Rejected) then a.(application := Some(Pending)) else a
  }

  function RecordApproved(a: Account): Account {
    a.(application := Some(Approved))
  }

  function RecordRejected(a: Account): Account {
    if a.application == Some(Pending) then a.(application := Some(Rejected)) else a
  }

  // ----- couriers -----

  /** Refused and fault definitely did nothing; unknown may have, or may yet. */
  datatype FleetAnswer = Activated | FleetRefused | FleetFault | FleetUnknown

  predicate DefinitelyDidNothing(answer: FleetAnswer) {
    answer == FleetRefused || answer == FleetFault
  }

  function FleetAfter(a: Account, answer: FleetAnswer): Account {
    match answer
    case Activated => a.(fleetActive := true)
    case FleetUnknown => a.(fleetPending := true)
    case _ => a
  }

  /** Filing a vehicle signs the account in, so it has a principal. */
  function FileCourier(a: Account, principal: string): Account {
    if a.role == Customer || a.role == Courier then RecordFiled(SyncKind(ResolveOrMint(a, principal))) else a
  }

  predicate MayApproveCourier(a: Account) {
    a.principal.Some? && a.application != Some(Rejected) && (a.role == Customer || a.role == Courier)
  }

  /** Ask the fleet and record the approval, or undo a promotion it refused. */
  function AskFleet(a: Account, answer: FleetAnswer, promoted: bool, writes: nat): Account {
    var asked := FleetAfter(a, answer);
    if writes <= 1 then (if writes == 0 then a else asked)
    else if answer == Activated then RecordApproved(asked)
    else if promoted && DefinitelyDidNothing(answer) then
      var restored := SaveRole(asked, Customer);
      if writes == 2 then restored else SyncKind(restored)
    else asked
  }

  /** `writes` counts the writes, the fleet call among them, before the process stops. */
  function ApproveCourier(a: Account, answer: FleetAnswer, writes: nat): Account {
    if !MayApproveCourier(a) then a
    else if a.role == Courier then AskFleet(a, answer, false, writes)
    else if writes == 0 then a
    else
      var promoted := SaveRole(a, Courier);
      if writes == 1 then promoted else AskFleet(SyncKind(promoted), answer, true, writes - 2)
  }

  function RejectCourier(a: Account): Account {
    if a.principal.Some? && a.application == Some(Pending) && a.role != Courier then RecordRejected(a) else a
  }

  // ----- sellers -----

  /** What an approval draws or learns: the ids for new rows, the instant and where the store is. */
  datatype Draw = Draw(merchantId: int, slug: string, principal: string, at: int, location: Option<string>)

  predicate MayBecomeSeller(role: Role) {
    role == Customer || role == Seller
  }

  function OnboardSeller(a: Account, form: Form): Account {
    if !MayBecomeSeller(a.role) || (a.verification.Some? && a.verification.value.status == Approved) then a
    else a.(verification := Some(Verification(form, Pending, 0)))
  }

  function RejectVerification(a: Account, at: int): Account {
    if a.verification.Some? && a.verification.value.status == Pending then
      a.(verification := Some(a.verification.value.(status := Rejected, decidedAt := at)))
    else a
  }

  predicate MayApproveSeller(a: Account) {
    && a.verification.Some? && a.verification.value.status == Pending
    && MayBecomeSeller(a.role)
    && (a.merchant.Some? ==> a.merchant.value.status !in {MerchantActive, MerchantSuspended})
  }

  function SaveMerchant(a: Account, draw: Draw): Account
    requires a.verification.Some?
  {
    var form := a.verification.value.form;
    a.(merchant := Some(
         if a.merchant.None? then
           Merchant(draw.merchantId, form.storeName, draw.slug, form.legal, MerchantVerified, draw.at, form.address, draw.location)
         else a.merchant.value.(status := MerchantVerified, verifiedAt := draw.at, address := form.address, location := draw.location)))
  }

  /** Register the merchant's alias; false when it already stands for another principal. */
  function RegisterAlias(a: Account): (Account, bool)
    requires a.merchant.Some? && a.principal.Some?
  {
    var id := a.merchant.value.id;
    if id in a.aliases then (a, a.aliases[id] == a.principal.value.id)
    else (a.(aliases := a.aliases[id := a.principal.value.id]), true)
  }

  function SaveVerified(a: Account, at: int): Account
    requires a.verification.Some?
  {
    a.(verification := Some(a.verification.value.(status := Approved, decidedAt := at)))
  }

  /** The writes that follow the merchant and the role: principal, kind, alias, verification. */
  function FinishSeller(a: Account, draw: Draw, writes: nat): Account
    requires a.verification.Some? && a.merchant.Some?
  {
    if writes == 0 then a
    else
      var named := ResolveOrMint(a, draw.principal);
      if writes == 1 then named
      else
        var synced := SyncKind(named);
        if writes == 2 then synced
        else
          var aliased := RegisterAlias(synced);
          if writes == 3 || !aliased.1 then aliased.0 else SaveVerified(aliased.0, draw.at)
  }

  function ApproveSeller(a: Account, draw: Draw, writes: nat): Account {
    if !MayApproveSeller(a) || writes == 0 then a
    else
      var placed := SaveMerchant(a, draw);
      if writes == 1 then placed else FinishSeller(SaveRole(placed, Seller), draw, writes - 2)
  }

  /** All the writes of an approval. */
  const ALL_WRITES: nat := 6

  // ----- the use cases, writing in sequence -----

  class OnboardingUsecases {
    var account: Account

    constructor (account: Account)
      ensures this.account == account
    {
      this.account := account;
    }

    method Approve(answer: FleetAnswer, writes: nat)
      modifies this
      ensures account == ApproveCourier(old(account), answer, writes)
    {
      if account.principal.None? || account.application == Some(Rejected) {
        return;
      }
      if account.role == Courier {
        Activate(answer, false, writes);
        return;
      }
      if account.role != Customer || writes == 0 {
        return;
      }
      account := account.(role := Courier);
      if writes == 1 {
        return;
      }
      account := account.(principal := Some(account.principal.value.(kind := PrincipalKindForRole(account.role))));
      Activate(answer, true, writes - 2);
    }

    method Activate(answer: FleetAnswer, promoted: bool, writes: nat)
      requires account.principal.Some?
      modifies this
      ensures account == AskFleet(old(account), answer, promoted, writes)
    {
      if writes == 0 {
        return;
      }
      match answer {
        case Activated => account := account.(fleetActive := true);
        case FleetUnknown => account := account.(fleetPending := true);
        case FleetRefused =>
        case FleetFault =>
      }
      if writes == 1 {
        return;
      }
      if answer == Activated {
        account := account.(application := Some(Approved));
        return;
      }
      if promoted && DefinitelyDidNothing(answer) {
        account := account.(role := Customer);
        if writes == 2 {
          return;
        }
        account := account.(principal := Some(account.principal.value.(kind := PrincipalKindForRole(account.role))));
      }
    }

    method File(principal: string)
      modifies this
      ensures account == FileCourier(old(account), principal)
    {
      if account.role != Customer && account.role != Courier {
        return;
      }
      if account.principal.None? {
        account := account.(principal := Some(Identity(principal, PrincipalKindForRole(account.role))));
      }
      account := account.(principal := Some(account.principal.value.(kind := PrincipalKindForRole(account.role))));
      if account.application.None? || account.application.value == Rejected {
        account := account.(application := Some(Pending));
      }
    }

    method Reject()
      modifies this
      ensures account == RejectCourier(old(account))
    {
      if account.principal.None? || account.application != Some(Pending) || account.role == Courier {
        return;
      }
      account := account.(application := Some(Rejected));
    }

    method Onboard(form: Form)
      modifies this
      ensures account == OnboardSeller(old(account), form)
    {
      if !MayBecomeSeller(account.role) {
        return;
      }
      if account.verification.None? {
        account := account.(verification := Some(Verification(form, Pending, 0)));
      } else if account.verification.value.status != Approved {
        var existing := account.verification.value;
        existing := existing.(form := form, status := Pending, decidedAt := 0);
        account := account.(verification := Some(existing));
      }
    }

    method RejectApplication(at: int)
      modifies this
      ensures account == RejectVerification(old(account), at)
    {
      if account.verification.None? || account.verification.value.status != Pending {
        return;
      }
      account := account.(verification := Some(account.verification.value.(status := Rejected, decidedAt := at)));
    }

    method Verify(draw: Draw, writes: nat)
      modifies this
      ensures account == ApproveSeller(old(account), draw, writes)
    {
      if account.verification.None? || account.verification.value.status != Pending || !MayBecomeSeller(account.role) {
        return;
      }
      if account.merchant.Some? && account.merchant.value.status in {MerchantActive, MerchantSuspended} {
        return;
      }
      if writes == 0 {
        return;
      }
      var form := account.verification.value.form;
      var merchant: Merchant;
      if account.merchant.None? {
        merchant := Merchant(draw.merchantId, form.storeName, draw.slug, form.legal, MerchantVerified, draw.at, form.address, draw.location);
      } else {
        merchant := account.merchant.value;
        merchant := merchant.(status := MerchantVerified, verifiedAt := draw.at, address := form.address);
        merchant := merchant.(location := draw.location);
      }
      account := account.(merchant := Some(merchant));
      if writes == 1 {
        return;
      }
      if account.role != Seller {
        account := account.(role := Seller);
      }
      Finish(draw, writes - 2);
    }

    method Finish(draw: Draw, writes: nat)
      requires account.verification.Some? && account.merchant.Some?
      modifies this
      ensures account == FinishSeller(old(account), draw, writes)
    {
      if writes == 0 {
        return;
      }
      if account.principal.None? {
        account := account.(principal := Some(Identity(draw.principal, PrincipalKindForRole(account.role))));
      }
      if writes == 1 {
        return;
      }
      account := account.(principal := Some(account.principal.value.(kind := PrincipalKindForRole(account.role))));
      if writes == 2 {
        return;
      }
      var id, principal := account.merchant.value.id, account.principal.value.id;
      if id in account.aliases && account.aliases[id] != principal {
        return;
      }
      if id !in account.aliases {
        account := account.(aliases := account.aliases[id := principal]);
      }
      if writes == 3 {
        return;
      }
      account := account.(verification := Some(account.verification.value.(status := Approved, decidedAt := draw.at)));
    }
  }

  // ----- runs -----

  datatype Step =
    | SignsIn(principal: string)
    | Files(principal: string)
    | ApprovesCourier(answer: FleetAnswer, writes: nat)
    | RejectsCourier
    | Lands
    | Onboards(form: Form)
    | ApprovesSeller(draw: Draw, writes: nat)
    | RejectsSeller(at: int)

  function Next(a: Account, step: Step): Account {
    match step
    case SignsIn(principal) => SyncKind(ResolveOrMint(a, principal))
    case Files(principal) => FileCourier(a, principal)
    case ApprovesCourier(answer, writes) => ApproveCourier(a, answer, writes)
    case RejectsCourier => RejectCourier(a)
    case Lands => if a.fleetPending then a.(fleetActive := true) else a
    case Onboards(form) => OnboardSeller(a, form)
    case ApprovesSeller(draw, writes) => if draw.merchantId in a.aliases then a else ApproveSeller(a, draw, writes)
    case RejectsSeller(at) => RejectVerification(a, at)
  }

  function Run(a: Account, steps: seq<Step>): Account
    decreases |steps|
  {
    if steps == [] then a else Run(Next(a, steps[0]), steps[1..])
  }

  /** An account before any application, whatever its role. */
  ghost predicate Initial(a: Account) {
    && a.application.None? && !a.fleetActive && !a.fleetPending
    && a.verification.None? && a.merchant.None? && a.aliases == map[]
  }

  ghost predicate CourierInv(a: Account) {
    && (a.fleetActive || a.fleetPending ==> a.role == Courier)
    && (a.application == Some(Approved) ==> a.role == Courier && a.fleetActive)
    && (a.application == Some(Rejected) ==> a.role != Courier)
  }

  ghost predicate SellerInv(a: Account) {
    && (forall id :: id in a.aliases ==> PrincipalIdOf(a) == Some(a.aliases[id]))
    && (a.merchant.Some? ==> a.merchant.value.status == MerchantVerified)
    && (a.verification.Some? && a.verification.value.status == Approved ==>
          a.role == Seller && a.merchant.Some? && a.merchant.value.id in a.aliases)
  }

  lemma CourierStep(a: Account, step: Step)
    requires CourierInv(a)
    ensures CourierInv(Next(a, step))
  {
  }

  lemma FinishKeepsSeller(a: Account, draw: Draw, writes: nat)
    requires SellerInv(a) && a.verification.Some? && a.merchant.Some? && a.role == Seller
    ensures SellerInv(FinishSeller(a, draw, writes))
  {
  }

  lemma SellerApprovalStep(a: Account, draw: Draw, writes: nat)
    requires SellerInv(a) && draw.merchantId !in a.aliases
    ensures SellerInv(ApproveSeller(a, draw, writes))
  {
    if MayApproveSeller(a) && writes >= 2 {
      FinishKeepsSeller(SaveRole(SaveMerchant(a, draw), Seller), draw, writes - 2);
    }
  }

  lemma CourierStepKeepsSeller(a: Account, answer: FleetAnswer, writes: nat)
    requires SellerInv(a)
    ensures SellerInv(ApproveCourier(a, answer, writes)) && SellerInv(RejectCourier(a))
  {
    CourierLeavesSeller(a, answer, writes);
  }

  /** A courier approval touches nothing of a seller, and makes no seller a courier. */
  lemma CourierLeavesSeller(a: Account, answer: FleetAnswer, writes: nat)
    ensures var b := ApproveCourier(a, answer, writes);
            && PrincipalIdOf(b) == PrincipalIdOf(a) && b.aliases == a.aliases
            && b.merchant == a.merchant && b.verification == a.verification
            && (a.role == Seller ==> b.role == Seller)
  {
  }

  lemma PlainStepKeepsSeller(a: Account, step: Step)
    requires SellerInv(a) && !step.ApprovesSeller? && !step.ApprovesCourier? && !step.RejectsCourier?
    ensures SellerInv(Next(a, step))
  {
  }

  lemma SellerStep(a: Account, step: Step)
    requires SellerInv(a)
    ensures SellerInv(Next(a, step))
  {
    if step.ApprovesSeller? {
      if step.draw.merchantId !in a.aliases {
        SellerApprovalStep(a, step.draw, step.writes);
      }
    } else if step.ApprovesCourier? {
      CourierStepKeepsSeller(a, step.answer, step.writes);
    } else if step.RejectsCourier? {
      CourierStepKeepsSeller(a, Activated, 0);
    } else {
      PlainStepKeepsSeller(a, step);
    }
  }

  lemma {:induction false} RunKeepsInv(a: Account, steps: seq<Step>)
    requires CourierInv(a) && SellerInv(a)
    ensures CourierInv(Run(a, steps)) && SellerInv(Run(a, steps))
    decreases |steps|
  {
    if steps != [] {
      CourierStep(a, steps[0]);
      SellerStep(a, steps[0]);
      RunKeepsInv(Next(a, steps[0]), steps[1..]);
    }
  }

  /**
   The courier saga: over every run of filings, approvals and rejections, courier and seller,
   wherever each stops and whatever the fleet answers or does late, an account active in the
   fleet is a courier, an approved one is also active there, and a rejected one is no courier.
   */
  lemma CourierSaga(start: Account, steps: seq<Step>)
    requires Initial(start)
    ensures var a := Run(start, steps);
            && (a.fleetActive ==> a.role == Courier)
            && (a.application == Some(Approved) ==> a.role == Courier && a.fleetActive)
            && (a.application == Some(Rejected) ==> a.role != Courier)
  {
    RunKeepsInv(start, steps);
  }

  /**
   A verified seller: in every reachable state a verified application means the role, a
   verified merchant, and a merchant alias that is the account's own principal.
   */
  lemma VerifiedSeller(start: Account, steps: seq<Step>)
    requires Initial(start)
    ensures var a := Run(start, steps);
            a.verification.Some? && a.verification.value.status == Approved ==>
              && a.role == Seller
              && a.merchant.Some? && a.merchant.value.status == MerchantVerified
              && a.principal.Some? && Lookup(a.aliases, a.merchant.value.id) == PrincipalIdOf(a)
  {
    RunKeepsInv(start, steps);
  }

  // ----- the kind of the principal -----

  /** The principal, if there is one, shows the kind of the account's role. */
  ghost predicate InStep(a: Account) {
    a.principal.Some? ==> a.principal.value.kind == PrincipalKindForRole(a.role)
  }

  /** The approval stops between a write of the role that changes it and the write of the kind. */
  predicate StopsBetween(a: Account, step: Step) {
    && a.principal.Some? && a.role == Customer
    && match step
       case ApprovesCourier(answer, writes) =>
         MayApproveCourier(a) && (writes == 1 || (writes == 4 && DefinitelyDidNothing(answer)))
       case ApprovesSeller(draw, writes) =>
         draw.merchantId !in a.aliases && MayApproveSeller(a) && (writes == 2 || writes == 3)
       case _ => false
  }

  lemma CourierApprovalKind(a: Account, answer: FleetAnswer, writes: nat)
    requires InStep(a)
    ensures InStep(ApproveCourier(a, answer, writes)) <==> !StopsBetween(a, ApprovesCourier(answer, writes))
  {
  }

  lemma FinishingKind(a: Account, draw: Draw, writes: nat)
    requires a.verification.Some? && a.merchant.Some?
    ensures FinishSeller(a, draw, writes).role == a.role
    ensures InStep(FinishSeller(a, draw, writes)) <==> InStep(a) || writes >= 2
  {
  }

  lemma SellerApprovalKind(a: Account, draw: Draw, writes: nat)
    requires InStep(a) && draw.merchantId !in a.aliases
    ensures InStep(ApproveSeller(a, draw, writes)) <==> !StopsBetween(a, ApprovesSeller(draw, writes))
  {
    if MayApproveSeller(a) && writes >= 2 {
      FinishingKind(SaveRole(SaveMerchant(a, draw), Seller), draw, writes - 2);
    }
  }

  /** One step leaves the kind behind exactly when it stops between the role and the kind. */
  lemma KindStep(a: Account, step: Step)
    requires InStep(a)
    ensures InStep(Next(a, step)) <==> !StopsBetween(a, step)
  {
    match step
    case ApprovesCourier(answer, writes) => CourierApprovalKind(a, answer, writes);
    case ApprovesSeller(draw, writes) =>
      if draw.merchantId !in a.aliases {
        SellerApprovalKind(a, draw, writes);
      }
    case _ =>
  }

  predicate NeverStopsBetween(a: Account, steps: seq<Step>)
    decreases |steps|
  {
    steps == [] || (!StopsBetween(a, steps[0]) && NeverStopsBetween(Next(a, steps[0]), steps[1..]))
  }

  ghost predicate AlwaysInStep(a: Account, steps: seq<Step>)
    decreases |steps|
  {
    InStep(a) && (steps == [] || AlwaysInStep(Next(a, steps[0]), steps[1..]))
  }

  /**
   The kind, exactly: over every run from an account in step, it is in step in every state if and
   only if no approval stops between a write of the role and the write of the kind.
   */
  lemma {:induction false} KindExactly(a: Account, steps: seq<Step>)
    requires InStep(a)
    ensures AlwaysInStep(a, steps) <==> NeverStopsBetween(a, steps)
    decreases |steps|
  {
    if steps != [] {
      KindStep(a, steps[0]);
      if InStep(Next(a, steps[0])) {
        KindExactly(Next(a, steps[0]), steps[1..]);
      } else {
        assert !AlwaysInStep(Next(a, steps[0]), steps[1..]);
      }
    }
  }

  /**
   And it lags only until the next sign-in, or the next filing as a customer or courier: whatever
   came before, either puts it in step, and from there on the rule above holds.
   */
  lemma KindLagsUntilSignIn(start: Account, before: seq<Step>, sync: Step, after: seq<Step>)
    requires sync.SignsIn? || (sync.Files? && Run(start, before).role in {Customer, Courier})
    ensures var synced := Next(Run(start, before), sync);
            InStep(synced) && (AlwaysInStep(synced, after) <==> NeverStopsBetween(synced, after))
  {
    KindExactly(Next(Run(start, before), sync), after);
  }

  // ----- rejections -----

  /** The step files the application anew. */
  predicate FilesAnew(a: Account, step: Step) {
    step.Files? && (a.role == Customer || a.role == Courier)
  }

  /** The step onboards the seller anew. */
  predicate OnboardsAnew(a: Account, step: Step) {
    step.Onboards? && MayBecomeSeller(a.role)
  }

  predicate NeverFilesAnew(a: Account, steps: seq<Step>)
    decreases |steps|
  {
    steps == [] || (!FilesAnew(a, steps[0]) && NeverFilesAnew(Next(a, steps[0]), steps[1..]))
  }

  predicate NeverOnboardsAnew(a: Account, steps: seq<Step>)
    decreases |steps|
  {
    steps == [] || (!OnboardsAnew(a, steps[0]) && NeverOnboardsAnew(Next(a, steps[0]), steps[1..]))
  }

  ghost predicate AlwaysRejected(a: Account, steps: seq<Step>)
    decreases |steps|
  {
    a.application == Some(Rejected) && (steps == [] || AlwaysRejected(Next(a, steps[0]), steps[1..]))
  }

  /** In every state of the run the seller application is the one given, rejection and all. */
  ghost predicate AlwaysVerification(a: Account, steps: seq<Step>, verification: Option<Verification>)
    decreases |steps|
  {
    a.verification == verification && (steps == [] || AlwaysVerification(Next(a, steps[0]), steps[1..], verification))
  }

  lemma FinishingLeavesCourier(a: Account, draw: Draw, writes: nat)
    requires a.verification.Some? && a.merchant.Some?
    ensures FinishSeller(a, draw, writes).application == a.application
  {
  }

  /** A seller approval touches no courier application. */
  lemma SellerLeavesCourier(a: Account, draw: Draw, writes: nat)
    ensures ApproveSeller(a, draw, writes).application == a.application
  {
    if MayApproveSeller(a) && writes >= 2 {
      FinishingLeavesCourier(SaveRole(SaveMerchant(a, draw), Seller), draw, writes - 2);
    }
  }

  lemma RejectedStep(a: Account, step: Step)
    requires a.application == Some(Rejected)
    ensures Next(a, step).application == Some(Rejected) <==> !FilesAnew(a, step)
  {
    if step.ApprovesSeller? {
      SellerLeavesCourier(a, step.draw, step.writes);
    }
  }

  /** A rejected courier application is rejected in every state of a run if and only if the run never files it anew. */
  lemma {:induction false} RejectedUntilFiled(a: Account, steps: seq<Step>)
    requires a.application == Some(Rejected)
    ensures AlwaysRejected(a, steps) <==> NeverFilesAnew(a, steps)
    decreases |steps|
  {
    if steps != [] {
      RejectedStep(a, steps[0]);
      if !FilesAnew(a, steps[0]) {
        RejectedUntilFiled(Next(a, steps[0]), steps[1..]);
      } else {
        assert !AlwaysRejected(Next(a, steps[0]), steps[1..]);
      }
    }
  }

  lemma SellerRejectedStep(a: Account, step: Step)
    requires a.verification.Some? && a.verification.value.status == Rejected
    ensures !OnboardsAnew(a, step) ==> Next(a, step).verification == a.verification
    ensures OnboardsAnew(a, step) ==> Next(a, step).verification == Some(Verification(step.form, Pending, 0))
  {
  }

  /** So is a rejected seller application, with its form and its instant, if and only if the run never onboards the seller anew. */
  lemma {:induction false} SellerRejectedUntilOnboarded(a: Account, steps: seq<Step>)
    requires a.verification.Some? && a.verification.value.status == Rejected
    ensures AlwaysVerification(a, steps, a.verification) <==> NeverOnboardsAnew(a, steps)
    decreases |steps|
  {
    if steps != [] {
      SellerRejectedStep(a, steps[0]);
      if !OnboardsAnew(a, steps[0]) {
        SellerRejectedUntilOnboarded(Next(a, steps[0]), steps[1..]);
      } else {
        assert !AlwaysVerification(Next(a, steps[0]), steps[1..], a.verification);
      }
    }
  }

  // ----- recovery -----

  /** The account up to instants and the place on the map. */
  function Modulo(a: Account): Account {
    a.(verification := if a.verification.Some? then Some(a.verification.value.(decidedAt := 0)) else None,
       merchant := if a.merchant.Some? then Some(a.merchant.value.(verifiedAt := 0, location := None)) else None)
  }

  /** Where a finished approval leaves the account. */
  function Finished(a: Account, draw: Draw): Account
    requires a.verification.Some? && a.merchant.Some?
  {
    var principal := if a.principal.Some? then a.principal.value.id else draw.principal;
    var identity := Identity(principal, PrincipalKindForRole(a.role));
    SaveVerified(a.(principal := Some(identity), aliases := a.aliases[a.merchant.value.id := principal]), draw.at)
  }

  lemma FinishReaches(a: Account, draw: Draw, writes: nat)
    requires SellerInv(a) && a.verification.Some? && a.merchant.Some? && writes >= 4
    ensures FinishSeller(a, draw, writes) == Finished(a, draw)
  {
    var synced := SyncKind(ResolveOrMint(a, draw.principal));
    var id := a.merchant.value.id;
    if id in a.aliases {
      assert a.aliases[id := a.aliases[id]] == a.aliases;
    }
  }

  /** Stopped short, the last part of an approval may be done again from the top. */
  lemma FinishRecovers(a: Account, first: Draw, again: Draw, writes: nat)
    requires SellerInv(a) && a.verification.Some? && a.merchant.Some? && a.role == Seller
    requires again.principal == first.principal && writes < 4
    ensures var stopped := FinishSeller(a, first, writes);
            && stopped.(principal := a.principal, aliases := a.aliases) == a
            && Modulo(Finished(stopped, again)) == Modulo(Finished(a, first))
  {
    var id := a.merchant.value.id;
    var principal := if a.principal.Some? then a.principal.value.id else first.principal;
    assert a.aliases[id := principal][id := principal] == a.aliases[id := principal];
    assert id in a.aliases ==> a.aliases[id := a.aliases[id]] == a.aliases;
  }

  /** Saving the merchant a second time changes at most the instant and the place. */
  lemma MerchantSavedTwice(a: Account, first: Draw, again: Draw)
    requires a.verification.Some?
    ensures var once, twice := SaveMerchant(a, first), SaveMerchant(SaveMerchant(a, first), again);
            && once.(merchant := a.merchant) == a && twice.(merchant := a.merchant) == a
            && twice.merchant.value.(verifiedAt := 0, location := None) == once.merchant.value.(verifiedAt := 0, location := None)
  {
  }

  function Promoted(a: Account, draw: Draw): Account
    requires a.verification.Some?
  {
    SaveRole(SaveMerchant(a, draw), Seller)
  }

  lemma WholeApproval(a: Account, draw: Draw)
    requires SellerInv(a) && MayApproveSeller(a)
    ensures ApproveSeller(a, draw, ALL_WRITES) == Finished(Promoted(a, draw), draw)
  {
    FinishReaches(Promoted(a, draw), draw, 4);
  }

  /** Instants and places that differ before the last part still only differ after it. */
  lemma FinishedModulo(b: Account, c: Account, first: Draw, again: Draw)
    requires b.verification.Some? && b.merchant.Some? && c.verification.Some? && c.merchant.Some?
    requires Modulo(b) == Modulo(c) && first.principal == again.principal
    ensures Modulo(Finished(b, first)) == Modulo(Finished(c, again))
  {
    assert b.merchant.value.id == Modulo(b).merchant.value.id && c.merchant.value.id == Modulo(c).merchant.value.id;
  }

  lemma StoppedEarly(a: Account, first: Draw, again: Draw)
    requires SellerInv(a) && MayApproveSeller(a) && again.(at := first.at, location := first.location) == first
    ensures Modulo(Finished(Promoted(a, again), again)) == Modulo(Finished(Promoted(a, first), first))
    ensures Modulo(Finished(Promoted(SaveMerchant(a, first), again), again)) == Modulo(Finished(Promoted(a, first), first))
  {
    MerchantSavedTwice(a, first, again);
    FinishedModulo(Promoted(a, first), Promoted(a, again), first, again);
    FinishedModulo(Promoted(a, first), Promoted(SaveMerchant(a, first), again), first, again);
  }

  lemma StoppedLate(a: Account, first: Draw, again: Draw, writes: nat)
    requires SellerInv(a) && MayApproveSeller(a) && again.(at := first.at, location := first.location) == first
    requires writes < 4
    ensures var stopped := FinishSeller(Promoted(a, first), first, writes);
            && MayApproveSeller(stopped)
            && Modulo(Finished(Promoted(stopped, again), again)) == Modulo(Finished(Promoted(a, first), first))
  {
    var b := Promoted(a, first);
    var stopped := FinishSeller(b, first, writes);
    FinishRecovers(b, first, again, writes);
    assert Modulo(Promoted(stopped, again)) == Modulo(stopped);
    FinishedModulo(stopped, Promoted(stopped, again), again, again);
  }

  lemma ApprovalRecovers(a: Account, first: Draw, again: Draw, writes: nat)
    requires SellerInv(a) && MayApproveSeller(a)
    requires again.(at := first.at, location := first.location) == first && writes < ALL_WRITES
    ensures var stopped := ApproveSeller(a, first, writes);
            && MayApproveSeller(stopped)
            && Modulo(ApproveSeller(stopped, again, ALL_WRITES)) == Modulo(Finished(Promoted(a, first), first))
  {
    var stopped := ApproveSeller(a, first, writes);
    if writes < 2 {
      StoppedEarly(a, first, again);
    } else {
      StoppedLate(a, first, again, writes - 2);
      FinishKeepsSeller(Promoted(a, first), first, writes - 2);
    }
    WholeApproval(stopped, again);
  }

  /** The draws that took effect: the first run's merchant from its first write, its principal from its third. */
  function InEffect(first: Draw, again: Draw, writes: nat): Draw {
    var merchant := if writes >= 1 then again.(merchantId := first.merchantId, slug := first.slug) else again;
    if writes >= 3 then merchant.(principal := first.principal) else merchant
  }

  /** What a draw names does not matter once it exists. */
  lemma DrawsAfterMerchant(a: Account, draw: Draw, other: Draw)
    requires a.verification.Some? && a.merchant.Some? && other == draw.(merchantId := other.merchantId, slug := other.slug)
    ensures ApproveSeller(a, draw, ALL_WRITES) == ApproveSeller(a, other, ALL_WRITES)
  {
  }

  lemma DrawsAfterPrincipal(a: Account, draw: Draw, principal: string)
    requires a.principal.Some?
    ensures ApproveSeller(a, draw, ALL_WRITES) == ApproveSeller(a, draw.(principal := principal), ALL_WRITES)
  {
  }

  lemma StoppedHolds(a: Account, draw: Draw, writes: nat)
    requires MayApproveSeller(a)
    ensures var stopped := ApproveSeller(a, draw, writes);
            && stopped.verification.Some?
            && (writes >= 1 ==> stopped.merchant.Some?)
            && (writes >= 3 ==> stopped.principal.Some?)
  {
    if writes >= 2 {
      FinishingHolds(SaveRole(SaveMerchant(a, draw), Seller), draw, writes - 2);
    }
  }

  lemma FinishingHolds(a: Account, draw: Draw, writes: nat)
    requires a.verification.Some? && a.merchant.Some?
    ensures var stopped := FinishSeller(a, draw, writes);
            stopped.verification.Some? && stopped.merchant.Some? && (writes >= 1 ==> stopped.principal.Some?)
  {
  }

  lemma RedrawsDoNotMatter(a: Account, first: Draw, again: Draw, writes: nat)
    requires MayApproveSeller(a)
    ensures var stopped := ApproveSeller(a, first, writes);
            ApproveSeller(stopped, again, ALL_WRITES) == ApproveSeller(stopped, InEffect(first, again, writes), ALL_WRITES)
  {
    var stopped := ApproveSeller(a, first, writes);
    StoppedHolds(a, first, writes);
    if writes >= 1 {
      var merchant := again.(merchantId := first.merchantId, slug := first.slug);
      DrawsAfterMerchant(stopped, again, merchant);
      if writes >= 3 {
        DrawsAfterPrincipal(stopped, merchant, first.principal);
      }
    }
  }

  /** Before a draw takes effect, the first run may as well have had the second run's. */
  lemma StoppedAlike(a: Account, first: Draw, again: Draw, writes: nat)
    requires MayApproveSeller(a)
    ensures ApproveSeller(a, first, writes) == ApproveSeller(a, InEffect(first, again, writes).(at := first.at, location := first.location), writes)
  {
  }

  /**
   Seller approval recovers: stopped after any write, the application still passes every
   guard, and approving again, with whatever it draws, ends in the same state as one
   uninterrupted run with the draws that took effect, up to instants and geocoding.
   */
  lemma SellerApprovalRecovers(start: Account, steps: seq<Step>, first: Draw, again: Draw, writes: nat)
    requires Initial(start) && MayApproveSeller(Run(start, steps)) && writes < ALL_WRITES
    ensures var a := Run(start, steps);
            var stopped := ApproveSeller(a, first, writes);
            var whole := ApproveSeller(a, InEffect(first, again, writes), ALL_WRITES);
            && MayApproveSeller(stopped)
            && Modulo(ApproveSeller(stopped, again, ALL_WRITES)) == Modulo(whole)
            && whole.verification.value.status == Approved
  {
    RunKeepsInv(start, steps);
    var a := Run(start, steps);
    var effect := InEffect(first, again, writes);
    var earlier := effect.(at := first.at, location := first.location);
    StoppedAlike(a, first, again, writes);
    RedrawsDoNotMatter(a, first, again, writes);
    ApprovalRecovers(a, earlier, effect, writes);
    WholeApproval(a, effect);
    StoppedEarly(a, earlier, effect);
  }

  /** Refused or failed for certain: a customer is what it was before, its kind in step. */
  lemma RefusalUndoesPromotion(a: Account, answer: FleetAnswer, writes: nat)
    requires MayApproveCourier(a) && a.role == Customer
    requires DefinitelyDidNothing(answer) && writes >= 5
    ensures ApproveCourier(a, answer, writes) == SyncKind(a)
  {
  }

  /** The first run stops between saving the role and writing a kind that differs. */
  predicate LeavesKindBehind(a: Account, writes: nat) {
    a.role == Customer && writes == 1 && a.principal.Some? && a.principal.value.kind != DriverKind
  }

  /**
   Approving a courier again, after a stop anywhere and whatever the fleet answered the first
   time: the role, the fleet row and the application end as in one uninterrupted run. The
   principal's kind does exactly when the first run did not stop right after promoting the
   customer, because the repeated approval of a courier does not write it.
   */
  lemma CourierApprovalRecovers(a: Account, answer: FleetAnswer, writes: nat)
    requires MayApproveCourier(a)
    ensures var stopped := ApproveCourier(a, answer, writes);
            var again, whole := ApproveCourier(stopped, Activated, ALL_WRITES), ApproveCourier(a, Activated, ALL_WRITES);
            && MayApproveCourier(stopped)
            && again.(principal := whole.principal, fleetPending := whole.fleetPending) == whole
            && PrincipalIdOf(again) == PrincipalIdOf(whole)
            && whole.role == Courier && whole.fleetActive && whole.application == Some(Approved)
            && (again.principal == whole.principal <==> !LeavesKindBehind(a, writes))
  {
    if a.role == Courier {
      StoppedCourier(a, answer, writes);
    } else {
      StoppedCustomer(a, answer, writes);
    }
  }

  lemma StoppedCourier(a: Account, answer: FleetAnswer, writes: nat)
    requires MayApproveCourier(a) && a.role == Courier
    ensures var stopped := ApproveCourier(a, answer, writes);
            && stopped.role == Courier && stopped.application in {a.application, Some(Approved)}
            && stopped.(application := a.application, fleetActive := a.fleetActive, fleetPending := a.fleetPending) == a
  {
  }

  lemma StoppedCustomer(a: Account, answer: FleetAnswer, writes: nat)
    requires MayApproveCourier(a) && a.role == Customer
    ensures var stopped := ApproveCourier(a, answer, writes);
            && stopped.role in {Customer, Courier} && stopped.application in {a.application, Some(Approved)}
            && stopped.(role := a.role, principal := a.principal, application := a.application,
                        fleetActive := a.fleetActive, fleetPending := a.fleetPending) == a
            && PrincipalIdOf(stopped) == PrincipalIdOf(a)
            && (stopped.role == Courier ==> (stopped.principal.value.kind == DriverKind <==> !LeavesKindBehind(a, writes)))
            && (writes == 1 ==> stopped.role == Courier)
  {
  }
}

/** The deterministic policy engine (package policy). */
module Policy {
  import opened Results
  import Usdc

  datatype Decision = Allow | RequireApproval | Deny

  /** ALLOW < REQUIRE_APPROVAL < DENY. */
  function Rank(d: Decision): nat {
    match d
    case Allow => 0
    case RequireApproval => 1
    case Deny => 2
  }

  function Worse(a: Decision, b: Decision): Decision {
    if Rank(b) > Rank(a) then b else a
  }

  /** The reason codes. `Generic` is the requirement text used when no check supplied its own. */
  datatype Reason =
    | Generic
    | MerchantBlocked
    | MerchantNotAllowlisted
    | MerchantOk
    | CategoryBlocked
    | CategoryOk
    | CurrencyNotSupported
    | AmountExceedsPerTransactionLimit
    | AmountExceedsDailyLimit
    | AmountAtOrAboveApprovalThreshold
    | AmountOk
    | AmountWithinHardLimits
    | PaymentProfileNotAllowed
    | PaymentProfileOk
    | ShippingProfileNotAllowed
    | ShippingProfileOk
    | InternationalMerchantRequiresApproval
    | InternationalOk
    | CryptoRecipientBlocked
    | CryptoRecipientNotAllowlisted
    | CryptoRecipientOk
    | CryptoAmountOk
    | CryptoAmountExceedsPerTransactionLimit
    | CryptoConfirmThresholdOk
    | CryptoAmountAtOrAboveConfirmThreshold

  datatype PolicyDecision = PolicyDecision(
    decision: Decision,
    reasons: seq<Reason>,
    version: string,
    requirement: Option<Reason>)

  const EMPTY: PolicyDecision := PolicyDecision(Allow, [], "", None)

  /** One more sub-decision folded into the composite; a missing one changes nothing. */
  function Fold(out: PolicyDecision, r: Option<PolicyDecision>): PolicyDecision {
    match r
    case None => out
    case Some(d) =>
      PolicyDecision(
        Worse(out.decision, d.decision),
        out.reasons + d.reasons,
        if d.version != "" then d.version else out.version,
        if d.requirement.Some? then d.requirement else out.requirement)
  }

  function FoldAll(results: seq<Option<PolicyDecision>>): PolicyDecision {
    if results == [] then EMPTY
    else Fold(FoldAll(results[..|results| - 1]), results[|results| - 1])
  }

  function Merge(results: seq<Option<PolicyDecision>>): PolicyDecision {
    var out := FoldAll(results);
    if out.decision == RequireApproval && out.requirement == None
    then out.(requirement := Some(Generic)) else out
  }

  /** merge: one pass that keeps the worst verdict and appends every reason. */
  method MergeDecisions(results: seq<Option<PolicyDecision>>) returns (out: PolicyDecision)
    ensures out == Merge(results)
  {
    out := EMPTY;
    for i := 0 to |results|
      invariant out == FoldAll(results[..i])
    {
      assert results[..i + 1][..i] == results[..i];
      if results[i].Some? {
        var d := results[i].value;
        out := out.(decision := Worse(out.decision, d.decision), reasons := out.reasons + d.reasons);
        if d.version != "" {
          out := out.(version := d.version);
        }
        if d.requirement.Some? {
          out := out.(requirement := d.requirement);
        }
      }
    }
    assert results[..|results|] == results;
    if out.decision == RequireApproval && out.requirement == None {
      out := out.(requirement := Some(Generic));
    }
  }

  /** Any DENY wins, otherwise any REQUIRE_APPROVAL, otherwise ALLOW; no reason is lost. */
  lemma {:induction false} MergeIsWorst(results: seq<Option<PolicyDecision>>)
    ensures var out := Merge(results);
            && (forall r | r in results && r.Some? ::
                  Rank(r.value.decision) <= Rank(out.decision) && forall c | c in r.value.reasons :: c in out.reasons)
            && (out.decision == Allow || exists r | r in results && r.Some? :: r.value.decision == out.decision)
  {
    if results != [] {
      var init, last := results[..|results| - 1], results[|results| - 1];
      MergeIsWorst(init);
      assert results == init + [last];
      var out := Merge(results);
      if out.decision != Allow && out.decision == FoldAll(init).decision {
        var r :| r in init && r.Some? && r.value.decision == out.decision;
        assert r in results;
      } else if out.decision != Allow {
        assert last in results;
      }
    }
  }

  // ----- rules and inputs

  datatype Rules = Rules(
    version: string,
    maxPerTransaction: int,
    maxPerDay: int,
    currency: string,
    approvalThreshold: int,
    allowedMerchants: seq<string>,
    blockedMerchants: seq<string>,
    blockedCategories: seq<string>,
    allowedPaymentProfiles: seq<string>,
    allowedShippingProfiles: seq<string>,
    internationalRequiresApproval: bool,
    allowedRecipients: seq<string>,
    blockedRecipients: seq<string>,
    maxCryptoTx: string,
    cryptoConfirmThreshold: string)

  function DefaultRules(): Rules {
    Rules("local-rules-v1", 200000, 500000, "INR", 100000, [], [], ["gift_cards"],
          ["payment:personal"], ["shipping:home"], true, [], [], "", "")
  }

  datatype Input = Input(
    merchant: string,
    category: string,
    amount: int,
    currency: string,
    paymentProfile: string,
    shippingProfile: string,
    international: bool,
    spendToday: int,
    recipient: string,
    amountUsdc: string)

  function Decide(r: Rules, d: Decision, reason: Reason): PolicyDecision {
    PolicyDecision(d, [reason], r.version, if d == RequireApproval then Some(reason) else None)
  }

  // ----- the individual checks

  function EvaluateMerchant(r: Rules, merchant: string): PolicyDecision {
    if merchant in r.blockedMerchants then Decide(r, Deny, MerchantBlocked)
    else if |r.allowedMerchants| > 0 && merchant !in r.allowedMerchants then Decide(r, Deny, MerchantNotAllowlisted)
    else Decide(r, Allow, MerchantOk)
  }

  function EvaluateCategory(r: Rules, category: string): PolicyDecision {
    if category != "" && category in r.blockedCategories then Decide(r, Deny, CategoryBlocked)
    else Decide(r, Allow, CategoryOk)
  }

  function EvaluateAmount(r: Rules, amount: int, currency: string, spendToday: int): PolicyDecision {
    if r.currency != "" && currency != r.currency then Decide(r, Deny, CurrencyNotSupported)
    else if r.maxPerTransaction > 0 && amount > r.maxPerTransaction then
      Decide(r, Deny, AmountExceedsPerTransactionLimit)
    else if r.maxPerDay > 0 && spendToday + amount > r.maxPerDay then Decide(r, Deny, AmountExceedsDailyLimit)
    else if r.approvalThreshold > 0 && amount >= r.approvalThreshold then
      Decide(r, RequireApproval, AmountAtOrAboveApprovalThreshold)
    else Decide(r, Allow, AmountOk)
  }

  function EvaluateHardAmountCaps(r: Rules, amount: int, currency: string, spendToday: int): PolicyDecision {
    if r.currency != "" && currency != r.currency then Decide(r, Deny, CurrencyNotSupported)
    else if r.maxPerTransaction > 0 && amount > r.maxPerTransaction then
      Decide(r, Deny, AmountExceedsPerTransactionLimit)
    else if r.maxPerDay > 0 && spendToday + amount > r.maxPerDay then Decide(r, Deny, AmountExceedsDailyLimit)
    else Decide(r, Allow, AmountWithinHardLimits)
  }

  function EvaluatePaymentSource(r: Rules, profile: string): PolicyDecision {
    if |r.allowedPaymentProfiles| > 0 && profile !in r.allowedPaymentProfiles then
      Decide(r, Deny, PaymentProfileNotAllowed)
    else Decide(r, Allow, PaymentProfileOk)
  }

  function EvaluateShipping(r: Rules, profile: string): PolicyDecision {
    if |r.allowedShippingProfiles| > 0 && profile !in r.allowedShippingProfiles then
      Decide(r, Deny, ShippingProfileNotAllowed)
    else Decide(r, Allow, ShippingProfileOk)
  }

  function EvaluateInternational(r: Rules, international: bool): PolicyDecision {
    if international && r.internationalRequiresApproval then
      Decide(r, RequireApproval, InternationalMerchantRequiresApproval)
    else Decide(r, Allow, InternationalOk)
  }

  function EvaluateRecipient(r: Rules, recipient: string): PolicyDecision {
    if recipient in r.blockedRecipients then Decide(r, Deny, CryptoRecipientBlocked)
    else if |r.allowedRecipients| > 0 && recipient !in r.allowedRecipients then
      Decide(r, Deny, CryptoRecipientNotAllowlisted)
    else Decide(r, Allow, CryptoRecipientOk)
  }

  function EvaluateCryptoAmount(r: Rules, amount: string): Result<PolicyDecision, Error> {
    if r.maxCryptoTx == "" then Ok(Decide(r, Allow, CryptoAmountOk))
    else match Usdc.Above(amount, r.maxCryptoTx)
      case Err(e) => Err(e)
      case Ok(exceeds) =>
        Ok(if exceeds then Decide(r, Deny, CryptoAmountExceedsPerTransactionLimit)
           else Decide(r, Allow, CryptoAmountOk))
  }

  function EvaluateConfirmThreshold(r: Rules, amount: string): Result<PolicyDecision, Error> {
    if r.cryptoConfirmThreshold == "" then Ok(Decide(r, Allow, CryptoConfirmThresholdOk))
    else match Usdc.AtOrAbove(amount, r.cryptoConfirmThreshold)
      case Err(e) => Err(e)
      case Ok(reached) =>
        Ok(if reached then Decide(r, RequireApproval, CryptoAmountAtOrAboveConfirmThreshold)
           else Decide(r, Allow, CryptoConfirmThresholdOk))
  }

  /** Both fields must be set; a half-filled input is an ordinary purchase. */
  predicate IsCryptoRail(i: Input) {
    i.recipient != "" && i.amountUsdc != ""
  }

  // ----- the two composite checks

  function PurchaseChecks(r: Rules, i: Input): seq<Option<PolicyDecision>> {
    [Some(EvaluateMerchant(r, i.merchant)),
     Some(EvaluateCategory(r, i.category)),
     Some(EvaluateAmount(r, i.amount, i.currency, i.spendToday)),
     Some(EvaluatePaymentSource(r, i.paymentProfile)),
     Some(EvaluateShipping(r, i.shippingProfile)),
     Some(EvaluateInternational(r, i.international))]
  }

  function PaymentChecks(r: Rules, i: Input): seq<Option<PolicyDecision>> {
    [Some(EvaluateHardAmountCaps(r, i.amount, i.currency, i.spendToday)),
     Some(EvaluatePaymentSource(r, i.paymentProfile))]
  }

  function EvaluatePurchaseIntent(r: Rules, i: Input): Result<PolicyDecision, Error> {
    if IsCryptoRail(i) then
      var amount := EvaluateCryptoAmount(r, i.amountUsdc);
      var confirm := EvaluateConfirmThreshold(r, i.amountUsdc);
      if amount.Err? then Err(amount.error)
      else if confirm.Err? then Err(confirm.error)
      else Ok(Merge([Some(EvaluateRecipient(r, i.recipient)), Some(amount.value), Some(confirm.value)]))
    else Ok(Merge(PurchaseChecks(r, i)))
  }

  function EvaluatePayment(r: Rules, i: Input): Result<PolicyDecision, Error> {
    if IsCryptoRail(i) then
      var amount := EvaluateCryptoAmount(r, i.amountUsdc);
      if amount.Err? then Err(amount.error)
      else Ok(Merge([Some(EvaluateRecipient(r, i.recipient)), Some(amount.value)]))
    else Ok(Merge(PaymentChecks(r, i)))
  }

  // ----- composite verdicts as maxima

  function Max(a: nat, b: nat): nat {
    if a > b then a else b
  }

  lemma {:induction false} FoldStep(s: seq<Option<PolicyDecision>>, d: PolicyDecision)
    ensures Rank(FoldAll(s + [Some(d)]).decision) == Max(Rank(FoldAll(s).decision), Rank(d.decision))
  {
    assert (s + [Some(d)])[..|s|] == s;
  }

  lemma {:induction false} MergeTwo(a: PolicyDecision, b: PolicyDecision)
    ensures Rank(Merge([Some(a), Some(b)]).decision) == Max(Rank(a.decision), Rank(b.decision))
  {
    FoldStep([], a);
    FoldStep([Some(a)], b);
    assert [] + [Some(a)] == [Some(a)] && [Some(a)] + [Some(b)] == [Some(a), Some(b)];
  }

  lemma {:induction false} MergeThree(a: PolicyDecision, b: PolicyDecision, c: PolicyDecision)
    ensures Rank(Merge([Some(a), Some(b), Some(c)]).decision)
            == Max(Max(Rank(a.decision), Rank(b.decision)), Rank(c.decision))
  {
    MergeTwo(a, b);
    FoldStep([Some(a), Some(b)], c);
    assert [Some(a), Some(b)] + [Some(c)] == [Some(a), Some(b), Some(c)];
  }

  lemma {:induction false} MergeSix(a: PolicyDecision, b: PolicyDecision, c: PolicyDecision,
                 d: PolicyDecision, e: PolicyDecision, f: PolicyDecision)
    ensures Rank(Merge([Some(a), Some(b), Some(c), Some(d), Some(e), Some(f)]).decision)
            == Max(Max(Max(Rank(a.decision), Rank(b.decision)), Rank(c.decision)),
                   Max(Max(Rank(d.decision), Rank(e.decision)), Rank(f.decision)))
  {
    MergeThree(a, b, c);
    var three := [Some(a), Some(b), Some(c)];
    FoldStep(three, d);
    FoldStep(three + [Some(d)], e);
    FoldStep(three + [Some(d)] + [Some(e)], f);
    assert three + [Some(d)] + [Some(e)] + [Some(f)] == [Some(a), Some(b), Some(c), Some(d), Some(e), Some(f)];
  }

  /** How restrictive an evaluation is; an evaluation error stops the purchase, so it ranks above DENY. */
  function Severity(r: Result<PolicyDecision, Error>): nat {
    if r.Ok? then Rank(r.value.decision) else 3
  }

  function PurchaseSeverity(r: Rules, i: Input): nat {
    if IsCryptoRail(i) then
      var amount := Severity(EvaluateCryptoAmount(r, i.amountUsdc));
      var confirm := Severity(EvaluateConfirmThreshold(r, i.amountUsdc));
      Max(Max(Rank(EvaluateRecipient(r, i.recipient).decision), amount), confirm)
    else
      Max(Max(Max(Rank(EvaluateMerchant(r, i.merchant).decision), Rank(EvaluateCategory(r, i.category).decision)),
              Rank(EvaluateAmount(r, i.amount, i.currency, i.spendToday).decision)),
          Max(Max(Rank(EvaluatePaymentSource(r, i.paymentProfile).decision),
                  Rank(EvaluateShipping(r, i.shippingProfile).decision)),
              Rank(EvaluateInternational(r, i.international).decision)))
  }

  function PaymentSeverity(r: Rules, i: Input): nat {
    if IsCryptoRail(i) then
      Max(Rank(EvaluateRecipient(r, i.recipient).decision), Severity(EvaluateCryptoAmount(r, i.amountUsdc)))
    else
      Max(Rank(EvaluateHardAmountCaps(r, i.amount, i.currency, i.spendToday).decision),
          Rank(EvaluatePaymentSource(r, i.paymentProfile).decision))
  }

  /** Both composites are the maximum over their checks. */
  lemma {:induction false} SeverityIsMax(r: Rules, i: Input)
    ensures Severity(EvaluatePurchaseIntent(r, i)) == PurchaseSeverity(r, i)
    ensures Severity(EvaluatePayment(r, i)) == PaymentSeverity(r, i)
  {
    if IsCryptoRail(i) {
      var amount := EvaluateCryptoAmount(r, i.amountUsdc);
      var confirm := EvaluateConfirmThreshold(r, i.amountUsdc);
      if amount.Ok? {
        MergeTwo(EvaluateRecipient(r, i.recipient), amount.value);
        if confirm.Ok? {
          MergeThree(EvaluateRecipient(r, i.recipient), amount.value, confirm.value);
        }
      }
    } else {
      MergeSix(EvaluateMerchant(r, i.merchant), EvaluateCategory(r, i.category),
               EvaluateAmount(r, i.amount, i.currency, i.spendToday),
               EvaluatePaymentSource(r, i.paymentProfile), EvaluateShipping(r, i.shippingProfile),
               EvaluateInternational(r, i.international));
      MergeTwo(EvaluateHardAmountCaps(r, i.amount, i.currency, i.spendToday),
               EvaluatePaymentSource(r, i.paymentProfile));
    }
  }

  // ----- the verdicts, condition by condition

  predicate OverCaps(r: Rules, amount: int, currency: string, spent: int) {
    || (r.currency != "" && currency != r.currency)
    || (r.maxPerTransaction > 0 && amount > r.maxPerTransaction)
    || (r.maxPerDay > 0 && spent + amount > r.maxPerDay)
  }

  /** On an allow-list that is not empty. */
  predicate Listed(allowed: seq<string>, name: string) {
    allowed == [] || name in allowed
  }

  predicate Forbids(r: Rules, merchant: string, category: string, amount: int, currency: string,
                    paymentProfile: string, shippingProfile: string, spent: int)
  {
    || merchant in r.blockedMerchants || !Listed(r.allowedMerchants, merchant)
    || (category != "" && category in r.blockedCategories)
    || OverCaps(r, amount, currency, spent)
    || !Listed(r.allowedPaymentProfiles, paymentProfile)
    || !Listed(r.allowedShippingProfiles, shippingProfile)
  }

  predicate AsksUser(r: Rules, amount: int, international: bool) {
    (r.approvalThreshold > 0 && amount >= r.approvalThreshold) || (international && r.internationalRequiresApproval)
  }

  lemma {:induction false} RankTells(d: Decision)
    ensures d == if Rank(d) == 2 then Deny else if Rank(d) == 1 then RequireApproval else Allow
  {
  }

  /** A purchase is denied exactly when some condition forbids it, and otherwise asks exactly when the amount has
      reached the threshold or an international merchant must be approved. */
  lemma {:induction false} PurchaseVerdict(r: Rules, i: Input)
    requires !IsCryptoRail(i)
    ensures var d := EvaluatePurchaseIntent(r, i);
            d.Ok? && d.value.decision ==
              if Forbids(r, i.merchant, i.category, i.amount, i.currency, i.paymentProfile, i.shippingProfile,
                         i.spendToday) then Deny
              else if AsksUser(r, i.amount, i.international) then RequireApproval
              else Allow
  {
    SeverityIsMax(r, i);
    RankTells(EvaluatePurchaseIntent(r, i).value.decision);
  }

  /** A payment is denied exactly when it is over a cap or its source is not allowed, and never asks. */
  lemma {:induction false} PaymentVerdict(r: Rules, i: Input)
    requires !IsCryptoRail(i)
    ensures var d := EvaluatePayment(r, i);
            d.Ok? && d.value.decision ==
              if OverCaps(r, i.amount, i.currency, i.spendToday) || !Listed(r.allowedPaymentProfiles, i.paymentProfile)
              then Deny else Allow
  {
    SeverityIsMax(r, i);
    RankTells(EvaluatePayment(r, i).value.decision);
  }

  // ----- the reasons given

  /** What the amount check says first: the currency, then the caps, then the threshold. */
  function AmountReason(r: Rules, amount: int, currency: string, spent: int, asks: bool, passed: Reason): Reason {
    if r.currency != "" && currency != r.currency then CurrencyNotSupported
    else if r.maxPerTransaction > 0 && amount > r.maxPerTransaction then AmountExceedsPerTransactionLimit
    else if r.maxPerDay > 0 && spent + amount > r.maxPerDay then AmountExceedsDailyLimit
    else if asks && r.approvalThreshold > 0 && amount >= r.approvalThreshold then AmountAtOrAboveApprovalThreshold
    else passed
  }

  /** A decision that asks says what for. */
  predicate SaysWhy(d: PolicyDecision) {
    d.decision == RequireApproval ==> d.requirement.Some?
  }

  lemma {:induction false} FoldsOn(s: seq<Option<PolicyDecision>>, d: PolicyDecision)
    ensures var before, after := FoldAll(s), FoldAll(s + [Some(d)]);
            && after.reasons == before.reasons + d.reasons
            && after.requirement == (if d.requirement.Some? then d.requirement else before.requirement)
            && (SaysWhy(before) && SaysWhy(d) ==> SaysWhy(after))
  {
    assert (s + [Some(d)])[..|s|] == s;
  }

  lemma {:induction false} FoldsThree(s: seq<Option<PolicyDecision>>, a: PolicyDecision, b: PolicyDecision,
                                      c: PolicyDecision)
    requires SaysWhy(FoldAll(s)) && SaysWhy(a) && SaysWhy(b) && SaysWhy(c)
    ensures var before, after := FoldAll(s), FoldAll(s + [Some(a), Some(b), Some(c)]);
            && after.reasons == before.reasons + a.reasons + b.reasons + c.reasons && SaysWhy(after)
            && after.requirement == if c.requirement.Some? then c.requirement
                                    else if b.requirement.Some? then b.requirement
                                    else if a.requirement.Some? then a.requirement
                                    else before.requirement
  {
    FoldsOn(s, a);
    FoldsOn(s + [Some(a)], b);
    FoldsOn(s + [Some(a)] + [Some(b)], c);
    assert s + [Some(a)] + [Some(b)] + [Some(c)] == s + [Some(a), Some(b), Some(c)];
  }

  /** What six checks that each give one reason come to: their reasons in order, and the last requirement. */
  lemma {:induction false} MergeSixReasons(a: PolicyDecision, b: PolicyDecision, c: PolicyDecision, d: PolicyDecision,
                                           e: PolicyDecision, f: PolicyDecision)
    requires a.requirement == b.requirement == d.requirement == e.requirement == None
    requires SaysWhy(a) && SaysWhy(b) && SaysWhy(c) && SaysWhy(d) && SaysWhy(e) && SaysWhy(f)
    ensures var out := Merge([Some(a), Some(b), Some(c), Some(d), Some(e), Some(f)]);
            && out.reasons == a.reasons + b.reasons + c.reasons + d.reasons + e.reasons + f.reasons
            && out.requirement == if f.requirement.Some? then f.requirement else c.requirement
  {
    var first := [Some(a), Some(b), Some(c)];
    FoldsThree([], a, b, c);
    assert [] + first == first;
    FoldsThree(first, d, e, f);
    assert first + [Some(d), Some(e), Some(f)] == [Some(a), Some(b), Some(c), Some(d), Some(e), Some(f)];
  }

  /** What a check says: one reason, and when it asks, that reason as its requirement. */
  predicate Says(d: PolicyDecision, reason: Reason, asks: bool) {
    && d.reasons == [reason] && d.requirement == (if asks then Some(reason) else None)
    && (d.decision == RequireApproval <==> asks)
  }

  lemma {:induction false} ListReasons(r: Rules, i: Input)
    ensures Says(EvaluateMerchant(r, i.merchant),
                 if i.merchant in r.blockedMerchants then MerchantBlocked
                 else if Listed(r.allowedMerchants, i.merchant) then MerchantOk else MerchantNotAllowlisted, false)
    ensures Says(EvaluateCategory(r, i.category),
                 if i.category != "" && i.category in r.blockedCategories then CategoryBlocked else CategoryOk, false)
    ensures Says(EvaluatePaymentSource(r, i.paymentProfile),
                 if Listed(r.allowedPaymentProfiles, i.paymentProfile) then PaymentProfileOk
                 else PaymentProfileNotAllowed, false)
    ensures Says(EvaluateShipping(r, i.shippingProfile),
                 if Listed(r.allowedShippingProfiles, i.shippingProfile) then ShippingProfileOk
                 else ShippingProfileNotAllowed, false)
  {
  }

  lemma {:induction false} AskReasons(r: Rules, i: Input)
    ensures var amount := AmountReason(r, i.amount, i.currency, i.spendToday, true, AmountOk);
            Says(EvaluateAmount(r, i.amount, i.currency, i.spendToday), amount,
                 amount == AmountAtOrAboveApprovalThreshold)
    ensures Says(EvaluateHardAmountCaps(r, i.amount, i.currency, i.spendToday),
                 AmountReason(r, i.amount, i.currency, i.spendToday, false, AmountWithinHardLimits), false)
    ensures var asks := i.international && r.internationalRequiresApproval;
            Says(EvaluateInternational(r, i.international),
                 if asks then InternationalMerchantRequiresApproval else InternationalOk, asks)
  {
  }

  /** Every check of a purchase gives its reason, in the order of the checks, and a decision that asks says what for: the
      international merchant before the amount. */
  lemma {:induction false} PurchaseReasons(r: Rules, i: Input)
    requires !IsCryptoRail(i)
    ensures var d := EvaluatePurchaseIntent(r, i);
            var amount := AmountReason(r, i.amount, i.currency, i.spendToday, true, AmountOk);
            && d.Ok?
            && d.value.reasons
               == [if i.merchant in r.blockedMerchants then MerchantBlocked
                   else if Listed(r.allowedMerchants, i.merchant) then MerchantOk else MerchantNotAllowlisted]
                  + [if i.category != "" && i.category in r.blockedCategories then CategoryBlocked else CategoryOk]
                  + [amount]
                  + [if Listed(r.allowedPaymentProfiles, i.paymentProfile) then PaymentProfileOk
                     else PaymentProfileNotAllowed]
                  + [if Listed(r.allowedShippingProfiles, i.shippingProfile) then ShippingProfileOk
                     else ShippingProfileNotAllowed]
                  + [if i.international && r.internationalRequiresApproval then InternationalMerchantRequiresApproval
                     else InternationalOk]
            && d.value.requirement
               == if i.international && r.internationalRequiresApproval then Some(InternationalMerchantRequiresApproval)
                  else if amount == AmountAtOrAboveApprovalThreshold then Some(amount)
                  else None
  {
    ListReasons(r, i);
    AskReasons(r, i);
    MergeSixReasons(EvaluateMerchant(r, i.merchant), EvaluateCategory(r, i.category),
                    EvaluateAmount(r, i.amount, i.currency, i.spendToday),
                    EvaluatePaymentSource(r, i.paymentProfile), EvaluateShipping(r, i.shippingProfile),
                    EvaluateInternational(r, i.international));
  }

  /** And of a payment, which asks for nothing. */
  lemma {:induction false} PaymentReasons(r: Rules, i: Input)
    requires !IsCryptoRail(i)
    ensures var d := EvaluatePayment(r, i);
            && d.Ok? && d.value.requirement == None
            && d.value.reasons
               == [AmountReason(r, i.amount, i.currency, i.spendToday, false, AmountWithinHardLimits),
                   if Listed(r.allowedPaymentProfiles, i.paymentProfile) then PaymentProfileOk
                   else PaymentProfileNotAllowed]
  {
    var cs := PaymentChecks(r, i);
    FoldsOn([], cs[0].value);
    FoldsOn([cs[0]], cs[1].value);
    assert [] + [cs[0]] == [cs[0]] && [cs[0]] + [cs[1]] == cs;
    PaymentRecheck(r, i);
  }

  // ----- purchase time against payment time

  /** The payment re-check never asks for an approval again, and is never stricter than the purchase check. */
  lemma {:induction false} PaymentRecheck(r: Rules, i: Input)
    ensures var pay := EvaluatePayment(r, i); var buy := EvaluatePurchaseIntent(r, i);
            && (pay.Ok? ==> pay.value.decision != RequireApproval)
            && (pay.Ok? && pay.value.decision == Deny && buy.Ok? ==> buy.value.decision == Deny)
            && (pay.Err? ==> buy.Err?)
            && (buy.Ok? && buy.value.decision != Deny ==> pay.Ok? && pay.value.decision == Allow)
  {
    SeverityIsMax(r, i);
  }

  // ----- monotonicity

  /** The same purchase with more money in it or more already spent. */
  predicate Larger(i: Input, j: Input) {
    && j == i.(amount := j.amount, spendToday := j.spendToday)
    && i.amount <= j.amount && i.spendToday <= j.spendToday
  }

  /** The same crypto-rail payment with a larger, readable amount. */
  predicate LargerCrypto(i: Input, j: Input) {
    && IsCryptoRail(i) && IsCryptoRail(j) && j == i.(amountUsdc := j.amountUsdc)
    && Usdc.Micros(i.amountUsdc).Ok? && Usdc.Micros(j.amountUsdc).Ok?
    && Usdc.Micros(i.amountUsdc).value <= Usdc.Micros(j.amountUsdc).value
  }

  // The two decimal checks, as functions of what their texts parse to.

  function CapSeverity(unset: bool, amount: Result<int, Error>, cap: Result<int, Error>): nat {
    if unset then 0 else if amount.Err? || cap.Err? then 3 else if amount.value > cap.value then 2 else 0
  }

  function ThresholdSeverity(unset: bool, amount: Result<int, Error>, threshold: Result<int, Error>): nat {
    if unset then 0 else if amount.Err? || threshold.Err? then 3 else if amount.value >= threshold.value then 1 else 0
  }

  lemma {:induction false} CryptoCap(r: Rules, amount: string)
    ensures Severity(EvaluateCryptoAmount(r, amount))
            == CapSeverity(r.maxCryptoTx == "", Usdc.Micros(amount), Usdc.Micros(r.maxCryptoTx))
  {
  }

  lemma {:induction false} CryptoThreshold(r: Rules, amount: string)
    ensures Severity(EvaluateConfirmThreshold(r, amount))
            == ThresholdSeverity(r.cryptoConfirmThreshold == "", Usdc.Micros(amount),
                                 Usdc.Micros(r.cryptoConfirmThreshold))
  {
  }

  lemma {:induction false} CapMonotone(unset: bool, x: Result<int, Error>, y: Result<int, Error>,
                                       cap: Result<int, Error>)
    requires x.Ok? && y.Ok? && x.value <= y.value
    ensures CapSeverity(unset, x, cap) <= CapSeverity(unset, y, cap)
    ensures ThresholdSeverity(unset, x, cap) <= ThresholdSeverity(unset, y, cap)
  {
  }

  lemma {:induction false} LargerCryptoCap(r: Rules, x: string, y: string)
    requires Usdc.Micros(x).Ok? && Usdc.Micros(y).Ok? && Usdc.Micros(x).value <= Usdc.Micros(y).value
    ensures Severity(EvaluateCryptoAmount(r, x)) <= Severity(EvaluateCryptoAmount(r, y))
  {
    CryptoCap(r, x);
    CryptoCap(r, y);
    CapMonotone(r.maxCryptoTx == "", Usdc.Micros(x), Usdc.Micros(y), Usdc.Micros(r.maxCryptoTx));
  }

  lemma {:induction false} LargerCryptoThreshold(r: Rules, x: string, y: string)
    requires Usdc.Micros(x).Ok? && Usdc.Micros(y).Ok? && Usdc.Micros(x).value <= Usdc.Micros(y).value
    ensures Severity(EvaluateConfirmThreshold(r, x)) <= Severity(EvaluateConfirmThreshold(r, y))
  {
    CryptoThreshold(r, x);
    CryptoThreshold(r, y);
    CapMonotone(r.cryptoConfirmThreshold == "", Usdc.Micros(x), Usdc.Micros(y),
                Usdc.Micros(r.cryptoConfirmThreshold));
  }

  lemma {:induction false} LargerSeverity(r: Rules, i: Input, j: Input)
    requires Larger(i, j)
    ensures PurchaseSeverity(r, i) <= PurchaseSeverity(r, j)
    ensures PaymentSeverity(r, i) <= PaymentSeverity(r, j)
  {
  }

  /** A larger amount or larger spend so far never gets a less restrictive answer. */
  lemma {:induction false} MoreSpendNeverLooser(r: Rules, i: Input, j: Input)
    requires Larger(i, j)
    ensures Severity(EvaluatePurchaseIntent(r, i)) <= Severity(EvaluatePurchaseIntent(r, j))
    ensures Severity(EvaluatePayment(r, i)) <= Severity(EvaluatePayment(r, j))
  {
    SeverityIsMax(r, i);
    SeverityIsMax(r, j);
    LargerSeverity(r, i, j);
  }

  /** The same on the crypto rail. */
  lemma {:induction false} MoreCryptoNeverLooser(r: Rules, i: Input, j: Input)
    requires LargerCrypto(i, j)
    ensures Severity(EvaluatePurchaseIntent(r, i)) <= Severity(EvaluatePurchaseIntent(r, j))
    ensures Severity(EvaluatePayment(r, i)) <= Severity(EvaluatePayment(r, j))
  {
    SeverityIsMax(r, i);
    SeverityIsMax(r, j);
    LargerCryptoCap(r, i.amountUsdc, j.amountUsdc);
    LargerCryptoThreshold(r, i.amountUsdc, j.amountUsdc);
  }

  predicate TighterCap(a: int, b: int) {
    b > 0 ==> 0 < a <= b
  }

  predicate TighterBlocks(a: seq<string>, b: seq<string>) {
    forall x | x in b :: x in a
  }

  predicate TighterAllows(a: seq<string>, b: seq<string>) {
    |b| > 0 ==> |a| > 0 && forall x | x in a :: x in b
  }

  predicate TighterUsdc(a: string, b: string) {
    b != "" ==>
      a != "" &&
      (Usdc.Micros(a).Err? || (Usdc.Micros(b).Ok? && Usdc.Micros(a).value <= Usdc.Micros(b).value))
  }

  predicate TighterRail(a: Rules, b: Rules) {
    && TighterUsdc(a.maxCryptoTx, b.maxCryptoTx)
    && TighterUsdc(a.cryptoConfirmThreshold, b.cryptoConfirmThreshold)
  }

  predicate TighterPlain(a: Rules, b: Rules) {
    && TighterCap(a.maxPerTransaction, b.maxPerTransaction)
    && TighterCap(a.maxPerDay, b.maxPerDay)
    && TighterCap(a.approvalThreshold, b.approvalThreshold)
    && (b.currency != "" ==> a.currency == b.currency)
    && TighterBlocks(a.blockedMerchants, b.blockedMerchants)
    && TighterBlocks(a.blockedCategories, b.blockedCategories)
    && TighterBlocks(a.blockedRecipients, b.blockedRecipients)
    && TighterAllows(a.allowedMerchants, b.allowedMerchants)
    && TighterAllows(a.allowedPaymentProfiles, b.allowedPaymentProfiles)
    && TighterAllows(a.allowedShippingProfiles, b.allowedShippingProfiles)
    && TighterAllows(a.allowedRecipients, b.allowedRecipients)
    && (b.internationalRequiresApproval ==> a.internationalRequiresApproval)
  }

  /** Smaller caps and thresholds, longer block-lists, shorter non-empty allow-lists, checks switched on. */
  predicate Tighter(a: Rules, b: Rules) {
    TighterPlain(a, b) && TighterRail(a, b)
  }

  lemma {:induction false} TighterCryptoCap(a: Rules, b: Rules, amount: string)
    requires TighterUsdc(a.maxCryptoTx, b.maxCryptoTx)
    ensures Severity(EvaluateCryptoAmount(b, amount)) <= Severity(EvaluateCryptoAmount(a, amount))
  {
    CryptoCap(a, amount);
    CryptoCap(b, amount);
  }

  lemma {:induction false} TighterCryptoThreshold(a: Rules, b: Rules, amount: string)
    requires TighterUsdc(a.cryptoConfirmThreshold, b.cryptoConfirmThreshold)
    ensures Severity(EvaluateConfirmThreshold(b, amount)) <= Severity(EvaluateConfirmThreshold(a, amount))
  {
    CryptoThreshold(a, amount);
    CryptoThreshold(b, amount);
  }

  lemma {:induction false} TighterLists(a: Rules, b: Rules, i: Input)
    requires TighterPlain(a, b)
    ensures Rank(EvaluateMerchant(b, i.merchant).decision) <= Rank(EvaluateMerchant(a, i.merchant).decision)
    ensures Rank(EvaluateCategory(b, i.category).decision) <= Rank(EvaluateCategory(a, i.category).decision)
    ensures Rank(EvaluateRecipient(b, i.recipient).decision) <= Rank(EvaluateRecipient(a, i.recipient).decision)
    ensures Rank(EvaluatePaymentSource(b, i.paymentProfile).decision)
            <= Rank(EvaluatePaymentSource(a, i.paymentProfile).decision)
    ensures Rank(EvaluateShipping(b, i.shippingProfile).decision)
            <= Rank(EvaluateShipping(a, i.shippingProfile).decision)
  {
  }

  lemma {:induction false} TighterNumbers(a: Rules, b: Rules, i: Input)
    requires TighterPlain(a, b)
    ensures Rank(EvaluateAmount(b, i.amount, i.currency, i.spendToday).decision)
            <= Rank(EvaluateAmount(a, i.amount, i.currency, i.spendToday).decision)
    ensures Rank(EvaluateHardAmountCaps(b, i.amount, i.currency, i.spendToday).decision)
            <= Rank(EvaluateHardAmountCaps(a, i.amount, i.currency, i.spendToday).decision)
    ensures Rank(EvaluateInternational(b, i.international).decision)
            <= Rank(EvaluateInternational(a, i.international).decision)
  {
  }

  lemma {:induction false} TighterPlainSeverity(a: Rules, b: Rules, i: Input)
    requires TighterPlain(a, b) && !IsCryptoRail(i)
    ensures PurchaseSeverity(b, i) <= PurchaseSeverity(a, i)
  {
    TighterLists(a, b, i);
    TighterNumbers(a, b, i);
  }

  lemma {:induction false} TighterPaymentSeverity(a: Rules, b: Rules, i: Input)
    requires TighterPlain(a, b) && !IsCryptoRail(i)
    ensures PaymentSeverity(b, i) <= PaymentSeverity(a, i)
  {
    TighterLists(a, b, i);
    TighterNumbers(a, b, i);
  }

  lemma {:induction false} TighterRailSeverity(a: Rules, b: Rules, i: Input)
    requires Tighter(a, b) && IsCryptoRail(i)
    ensures PurchaseSeverity(b, i) <= PurchaseSeverity(a, i)
    ensures PaymentSeverity(b, i) <= PaymentSeverity(a, i)
  {
    TighterLists(a, b, i);
    TighterCryptoCap(a, b, i.amountUsdc);
    TighterCryptoThreshold(a, b, i.amountUsdc);
  }

  /** Tightening rules never loosens an answer, on either rail. */
  lemma {:induction false} TighterNeverLooser(a: Rules, b: Rules, i: Input)
    requires Tighter(a, b)
    ensures Severity(EvaluatePurchaseIntent(b, i)) <= Severity(EvaluatePurchaseIntent(a, i))
    ensures Severity(EvaluatePayment(b, i)) <= Severity(EvaluatePayment(a, i))
  {
    SeverityIsMax(a, i);
    SeverityIsMax(b, i);
    if IsCryptoRail(i) {
      TighterRailSeverity(a, b, i);
    } else {
      TighterPlainSeverity(a, b, i);
      TighterPaymentSeverity(a, b, i);
    }
  }

  /** Whether a limit that is set, or the amount checked against it, cannot be read. */
  predicate Unreadable(limit: string, amount: string) {
    limit != "" && (Usdc.Micros(amount).Err? || Usdc.Micros(limit).Err?)
  }

  /** A crypto-rail purchase fails exactly when the amount or a limit that is set cannot be read. */
  lemma {:induction false} CryptoFails(r: Rules, i: Input)
    requires IsCryptoRail(i)
    ensures EvaluatePurchaseIntent(r, i).Err? <==>
              Unreadable(r.maxCryptoTx, i.amountUsdc) || Unreadable(r.cryptoConfirmThreshold, i.amountUsdc)
  {
    SeverityIsMax(r, i);
    CryptoSeverity(r, i);
    CryptoErrors(RecipientForbidden(r, i.recipient), r.maxCryptoTx == "", r.cryptoConfirmThreshold == "",
                 Usdc.Micros(i.amountUsdc), Usdc.Micros(r.maxCryptoTx), Usdc.Micros(r.cryptoConfirmThreshold),
                 EvaluatePurchaseIntent(r, i));
  }

  lemma {:induction false} CryptoErrors(forbidden: bool, noCap: bool, noThreshold: bool, amount: Result<int, Error>,
                                        cap: Result<int, Error>, threshold: Result<int, Error>,
                                        verdict: Result<PolicyDecision, Error>)
    requires Severity(verdict) == Max(Max(if forbidden then 2 else 0, CapSeverity(noCap, amount, cap)),
                                      ThresholdSeverity(noThreshold, amount, threshold))
    ensures verdict.Err? <==>
              (!noCap && (amount.Err? || cap.Err?)) || (!noThreshold && (amount.Err? || threshold.Err?))
  {
  }

  /** Otherwise it is denied exactly for its recipient or above the cap, and asks exactly from the confirmation
      threshold on. */
  lemma {:induction false} CryptoVerdict(r: Rules, i: Input)
    requires IsCryptoRail(i) && EvaluatePurchaseIntent(r, i).Ok?
    ensures !Unreadable(r.maxCryptoTx, i.amountUsdc) && !Unreadable(r.cryptoConfirmThreshold, i.amountUsdc)
    ensures var amount := Usdc.Micros(i.amountUsdc);
            EvaluatePurchaseIntent(r, i).value.decision ==
              if RecipientForbidden(r, i.recipient) then Deny
              else if r.maxCryptoTx != "" && amount.value > Usdc.Micros(r.maxCryptoTx).value then Deny
              else if r.cryptoConfirmThreshold != "" && amount.value >= Usdc.Micros(r.cryptoConfirmThreshold).value
                     then RequireApproval
              else Allow
  {
    SeverityIsMax(r, i);
    CryptoSeverity(r, i);
    CryptoNumbers(RecipientForbidden(r, i.recipient), r.maxCryptoTx == "", r.cryptoConfirmThreshold == "",
                  Usdc.Micros(i.amountUsdc), Usdc.Micros(r.maxCryptoTx), Usdc.Micros(r.cryptoConfirmThreshold),
                  EvaluatePurchaseIntent(r, i));
  }

  predicate RecipientForbidden(r: Rules, recipient: string) {
    recipient in r.blockedRecipients || !Listed(r.allowedRecipients, recipient)
  }

  lemma {:induction false} CryptoSeverity(r: Rules, i: Input)
    requires IsCryptoRail(i)
    ensures PurchaseSeverity(r, i)
            == Max(Max(if RecipientForbidden(r, i.recipient) then 2 else 0,
                       CapSeverity(r.maxCryptoTx == "", Usdc.Micros(i.amountUsdc), Usdc.Micros(r.maxCryptoTx))),
                   ThresholdSeverity(r.cryptoConfirmThreshold == "", Usdc.Micros(i.amountUsdc),
                                     Usdc.Micros(r.cryptoConfirmThreshold)))
  {
    CryptoCap(r, i.amountUsdc);
    CryptoThreshold(r, i.amountUsdc);
  }

  lemma {:induction false} CryptoNumbers(forbidden: bool, noCap: bool, noThreshold: bool,
                                         amount: Result<int, Error>, cap: Result<int, Error>,
                                         threshold: Result<int, Error>,
                                         verdict: Result<PolicyDecision, Error>)
    requires verdict.Ok?
    requires Severity(verdict) == Max(Max(if forbidden then 2 else 0, CapSeverity(noCap, amount, cap)),
                                      ThresholdSeverity(noThreshold, amount, threshold))
    ensures noCap || (amount.Ok? && cap.Ok?)
    ensures noThreshold || (amount.Ok? && threshold.Ok?)
    ensures verdict.value.decision
            == if forbidden then Deny
               else if !noCap && amount.value > cap.value then Deny
               else if !noThreshold && amount.value >= threshold.value then RequireApproval
               else Allow
  {
    RankTells(verdict.value.decision);
  }

  /** What a payment-time ALLOW guarantees about money: the caps in force are respected. */
  lemma {:induction false} AllowedPaymentRespectsCaps(r: Rules, i: Input)
    requires !IsCryptoRail(i)
    requires EvaluatePayment(r, i).value.decision != Deny
    ensures r.maxPerTransaction > 0 ==> i.amount <= r.maxPerTransaction
    ensures r.maxPerDay > 0 ==> i.spendToday + i.amount <= r.maxPerDay
  {
    SeverityIsMax(r, i);
  }
}

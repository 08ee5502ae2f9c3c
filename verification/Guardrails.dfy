/** A user's own spending limits and the rules they turn into (internal/domain/account/guardrails.go). */
module Guardrails {
  import opened Results
  import opened Text
  import Policy

  datatype Limits = Limits(
    currency: string,
    approvalThreshold: int,
    maxPerPurchase: int,
    maxPerDay: int,
    blockedCategories: seq<string>,
    blockedMerchants: seq<string>,
    internationalRequiresApproval: bool)

  const PLATFORM_MAX_PER_DAY: int := 50_000_000

  const KNOWN_CATEGORIES: seq<string> :=
    ["groceries", "food_delivery", "electronics", "fashion", "home", "beauty",
     "pharmacy", "gift_cards", "alcohol", "tobacco", "subscriptions", "travel"]

  /** The categories kept from `cs`: trimmed, lower case, no blanks, no repeats; an unknown one is an error. */
  function CleanCategories(cs: seq<string>): Result<seq<string>, Error> {
    if cs == [] then Ok([])
    else
      var before := CleanCategories(cs[..|cs| - 1]);
      var c := Lower(Trim(cs[|cs| - 1]));
      if before.Err? then before
      else if c == "" || c in before.value then before
      else if c !in KNOWN_CATEGORIES then Err(Invalid)
      else Ok(before.value + [c])
  }

  function CleanMerchants(ms: seq<string>): seq<string> {
    if ms == [] then []
    else
      var before := CleanMerchants(ms[..|ms| - 1]);
      var m := Trim(ms[|ms| - 1]);
      if m == "" || m in before then before else before + [m]
  }

  function Normalized(g: Limits): Result<Limits, Error> {
    if g.maxPerDay <= 0 || g.maxPerDay > PLATFORM_MAX_PER_DAY || g.approvalThreshold < 0 then Err(Invalid)
    else
      var cats := CleanCategories(g.blockedCategories);
      if cats.Err? then Err(cats.error)
      else
        Ok(Limits(
          Upper(if g.currency == "" then "INR" else g.currency),
          g.approvalThreshold,
          if g.maxPerPurchase <= 0 || g.maxPerPurchase > g.maxPerDay then g.maxPerDay else g.maxPerPurchase,
          g.maxPerDay,
          cats.value,
          CleanMerchants(g.blockedMerchants),
          g.internationalRequiresApproval))
  }

  /** The category loop. */
  method NormalizeCategories(cs: seq<string>) returns (r: Result<seq<string>, Error>)
    ensures r == CleanCategories(cs)
  {
    var cats: seq<string> := [];
    for i := 0 to |cs|
      invariant CleanCategories(cs[..i]) == Ok(cats)
    {
      assert cs[..i + 1][..i] == cs[..i];
      var c := Lower(Trim(cs[i]));
      if c == "" || c in cats {
        continue;
      }
      if c !in KNOWN_CATEGORIES {
        CategoryErrorStays(cs, i + 1);
        return Err(Invalid);
      }
      cats := cats + [c];
    }
    assert cs[..|cs|] == cs;
    return Ok(cats);
  }

  /** The merchant loop. */
  method NormalizeMerchants(ms: seq<string>) returns (merchants: seq<string>)
    ensures merchants == CleanMerchants(ms)
  {
    merchants := [];
    for i := 0 to |ms|
      invariant CleanMerchants(ms[..i]) == merchants
    {
      assert ms[..i + 1][..i] == ms[..i];
      var m := Trim(ms[i]);
      if m != "" && m !in merchants {
        merchants := merchants + [m];
      }
    }
    assert ms[..|ms|] == ms;
  }

  /** Normalize: rewrites its copy field by field and rebuilds the two lists. */
  method Normalize(limits: Limits) returns (r: Result<Limits, Error>)
    ensures r == Normalized(limits)
  {
    var g := limits;
    if g.currency == "" {
      g := g.(currency := "INR");
    }
    g := g.(currency := Upper(g.currency));
    if g.maxPerDay <= 0 {
      return Err(Invalid);
    }
    if g.maxPerDay > PLATFORM_MAX_PER_DAY {
      return Err(Invalid);
    }
    if g.maxPerPurchase <= 0 || g.maxPerPurchase > g.maxPerDay {
      g := g.(maxPerPurchase := g.maxPerDay);
    }
    if g.approvalThreshold < 0 {
      return Err(Invalid);
    }
    var cats := NormalizeCategories(g.blockedCategories);
    if cats.Err? {
      return Err(cats.error);
    }
    var merchants := NormalizeMerchants(g.blockedMerchants);
    g := g.(blockedCategories := cats.value, blockedMerchants := merchants);
    return Ok(g);
  }

  lemma {:induction false} CategoryErrorStays(cs: seq<string>, k: nat)
    requires k <= |cs| && CleanCategories(cs[..k]).Err?
    ensures CleanCategories(cs) == Err(Invalid)
    decreases |cs| - k
  {
    if k < |cs| {
      assert cs[..k + 1][..k] == cs[..k];
      CategoryErrorStays(cs, k + 1);
    } else {
      assert cs[..k] == cs;
      OnlyInvalid(cs);
    }
  }

  lemma {:induction false} OnlyInvalid(cs: seq<string>)
    ensures CleanCategories(cs).Err? ==> CleanCategories(cs) == Err(Invalid)
  {
    if cs != [] {
      OnlyInvalid(cs[..|cs| - 1]);
    }
  }

  ghost predicate Distinct(s: seq<string>) {
    forall i, j | 0 <= i < j < |s| :: s[i] != s[j]
  }

  lemma {:induction false} LowerTrimIdempotent(s: string)
    ensures Lower(Trim(Lower(Trim(s)))) == Lower(Trim(s))
  {
    var t := Trim(s);
    var l := Lower(t);
    TrimLeftEnd(s);
    TrimRightEnd(TrimLeft(s));
    assert |l| == |t|;
    if t != "" {
      assert t[0] == TrimLeft(s)[0];
      assert !IsSpace(l[0]) && !IsSpace(l[|l| - 1]);
    }
    assert Trim(l) == l;
    assert Lower(l) == l;
  }

  /** What survives cleaning is already clean. */
  ghost predicate CleanCategory(c: string) {
    c != "" && Lower(Trim(c)) == c && c in KNOWN_CATEGORIES
  }

  lemma {:induction false} CleanedCategories(cs: seq<string>)
    requires CleanCategories(cs).Ok?
    ensures var out := CleanCategories(cs).value; Distinct(out) && forall c | c in out :: CleanCategory(c)
  {
    if cs != [] {
      CleanedCategories(cs[..|cs| - 1]);
      LowerTrimIdempotent(cs[|cs| - 1]);
    }
  }

  lemma {:induction false} CleanIsFixed(cs: seq<string>)
    requires Distinct(cs) && forall c | c in cs :: CleanCategory(c)
    ensures CleanCategories(cs) == Ok(cs)
  {
    if cs != [] {
      var init, last := cs[..|cs| - 1], cs[|cs| - 1];
      assert cs == init + [last];
      assert forall c | c in init :: c in cs;
      CleanIsFixed(init);
      assert CleanCategory(last);
      assert last !in init;
    }
  }

  lemma {:induction false} CleanedMerchants(ms: seq<string>)
    ensures var out := CleanMerchants(ms); Distinct(out) && forall m | m in out :: m != "" && Trim(m) == m
  {
    if ms != [] {
      CleanedMerchants(ms[..|ms| - 1]);
      TrimIdempotent(ms[|ms| - 1]);
    }
  }

  lemma {:induction false} MerchantsAreFixed(ms: seq<string>)
    requires Distinct(ms) && forall m | m in ms :: m != "" && Trim(m) == m
    ensures CleanMerchants(ms) == ms
  {
    if ms != [] {
      var init, last := ms[..|ms| - 1], ms[|ms| - 1];
      MerchantsAreFixed(init);
      assert ms == init + [last];
    }
  }

  /** What every accepted set of limits looks like. */
  ghost predicate Normal(g: Limits) {
    && 0 < g.maxPerPurchase <= g.maxPerDay <= PLATFORM_MAX_PER_DAY
    && g.approvalThreshold >= 0
    && Distinct(g.blockedCategories) && (forall c | c in g.blockedCategories :: c in KNOWN_CATEGORIES)
    && Distinct(g.blockedMerchants)
  }

  /** Normalize accepts only into the normal form, and leaves a normal form alone. */
  lemma NormalizeIsIdempotent(g: Limits)
    requires Normalized(g).Ok?
    ensures Normal(Normalized(g).value)
    ensures Normalized(Normalized(g).value) == Ok(Normalized(g).value)
  {
    var n := Normalized(g).value;
    CleanedCategories(g.blockedCategories);
    CleanIsFixed(n.blockedCategories);
    CleanedMerchants(g.blockedMerchants);
    MerchantsAreFixed(n.blockedMerchants);
    assert n.currency != "";
    assert Upper(n.currency) == n.currency;
  }

  function ToRules(g: Limits): Policy.Rules {
    Policy.DefaultRules().(
      version := "user-guardrails-v1",
      currency := g.currency,
      maxPerTransaction := g.maxPerPurchase,
      maxPerDay := g.maxPerDay,
      approvalThreshold := if g.approvalThreshold == 0 then 1 else g.approvalThreshold,
      blockedCategories := g.blockedCategories,
      blockedMerchants := g.blockedMerchants,
      internationalRequiresApproval := g.internationalRequiresApproval)
  }

  /** Whatever normalized limits let through stays under the platform ceiling, at purchase and at payment
      time; "always ask me" turns every positive amount into a question or a refusal. */
  lemma LimitsBound(g: Limits, i: Policy.Input)
    requires Normalized(g).Ok? && !Policy.IsCryptoRail(i)
    ensures var r := ToRules(Normalized(g).value);
            && ((Policy.Severity(Policy.EvaluatePurchaseIntent(r, i)) < 2
                 || Policy.Severity(Policy.EvaluatePayment(r, i)) < 2) ==>
                  i.spendToday + i.amount <= g.maxPerDay <= PLATFORM_MAX_PER_DAY)
            && (g.approvalThreshold == 0 && i.amount > 0 ==>
                  Policy.Severity(Policy.EvaluatePurchaseIntent(r, i)) >= 1)
  {
    NormalizeIsIdempotent(g);
    Policy.SeverityIsMax(ToRules(Normalized(g).value), i);
  }

  // ----- what the user set, and what it comes to

  /** Which categories are kept, and when a list is accepted at all. */
  lemma {:induction false} CategoriesKept(cs: seq<string>)
    ensures CleanCategories(cs).Ok?
            <==> forall b | b in cs :: Lower(Trim(b)) == "" || Lower(Trim(b)) in KNOWN_CATEGORIES
    ensures CleanCategories(cs).Ok? ==>
              forall c :: c in CleanCategories(cs).value <==> c != "" && exists b | b in cs :: Lower(Trim(b)) == c
  {
    if cs != [] {
      var init, last := cs[..|cs| - 1], cs[|cs| - 1];
      CategoriesKept(init);
      assert cs == init + [last];
      assert forall b | b in cs :: b in init || b == last;
    }
  }

  lemma {:induction false} MerchantsKept(ms: seq<string>)
    ensures forall m :: m in CleanMerchants(ms) <==> m != "" && exists b | b in ms :: Trim(b) == m
  {
    if ms != [] {
      var init, last := ms[..|ms| - 1], ms[|ms| - 1];
      MerchantsKept(init);
      assert ms == init + [last];
      assert forall b | b in ms :: b in init || b == last;
    }
  }

  /** The limits a user may set, and what is kept of them: a daily cap within the platform's, no negative threshold and
      only known categories; names are trimmed, categories also in lower case, and a purchase cap that is missing or
      above the daily one becomes the daily one. */
  lemma {:induction false} NormalizedKeeps(g: Limits)
    ensures Normalized(g).Ok? <==>
              && 0 < g.maxPerDay <= PLATFORM_MAX_PER_DAY && g.approvalThreshold >= 0
              && forall b | b in g.blockedCategories :: Lower(Trim(b)) == "" || Lower(Trim(b)) in KNOWN_CATEGORIES
    ensures Normalized(g).Ok? ==>
              var n := Normalized(g).value;
              && n.currency == (if g.currency == "" then "INR" else Upper(g.currency))
              && n.approvalThreshold == g.approvalThreshold && n.maxPerDay == g.maxPerDay
              && n.maxPerPurchase == (if 0 < g.maxPerPurchase <= g.maxPerDay then g.maxPerPurchase else g.maxPerDay)
              && n.internationalRequiresApproval == g.internationalRequiresApproval
    ensures Normalized(g).Ok? ==>
              var n := Normalized(g).value;
              && (forall m ::
                    m in n.blockedMerchants <==> m != "" && exists b | b in g.blockedMerchants :: Trim(b) == m)
              && (forall c ::
                    c in n.blockedCategories
                    <==> c != "" && exists b | b in g.blockedCategories :: Lower(Trim(b)) == c)
  {
    CategoriesKept(g.blockedCategories);
    MerchantsKept(g.blockedMerchants);
    assert Upper("INR") == "INR";
  }

  /** A purchase under a user's limits, in the user's own terms. */
  lemma {:induction false} LimitsVerdict(g: Limits, i: Policy.Input)
    requires Normalized(g).Ok? && !Policy.IsCryptoRail(i)
    ensures var n := Normalized(g).value;
            var d := Policy.EvaluatePurchaseIntent(ToRules(n), i);
            && d.Ok?
            && (d.value.decision == Policy.Deny <==>
                  || i.merchant in n.blockedMerchants
                  || (i.category != "" && i.category in n.blockedCategories)
                  || i.currency != n.currency
                  || i.amount > n.maxPerPurchase || i.spendToday + i.amount > n.maxPerDay
                  || i.paymentProfile != "payment:personal" || i.shippingProfile != "shipping:home")
            && (d.value.decision != Policy.Deny ==>
                  (d.value.decision == Policy.RequireApproval <==>
                     || i.amount >= (if n.approvalThreshold == 0 then 1 else n.approvalThreshold)
                     || (i.international && n.internationalRequiresApproval)))
  {
    NormalizeIsIdempotent(g);
    assert Normalized(g).value.currency != "";
    Policy.PurchaseVerdict(ToRules(Normalized(g).value), i);
  }

  /** A payment under a user's limits: only the caps, the currency and the payment source are looked at again. */
  lemma {:induction false} LimitsPaymentVerdict(g: Limits, i: Policy.Input)
    requires Normalized(g).Ok? && !Policy.IsCryptoRail(i)
    ensures var n := Normalized(g).value;
            var d := Policy.EvaluatePayment(ToRules(n), i);
            && d.Ok?
            && d.value.decision
               == if i.currency != n.currency || i.amount > n.maxPerPurchase || i.spendToday + i.amount > n.maxPerDay
                     || i.paymentProfile != "payment:personal"
                  then Policy.Deny else Policy.Allow
  {
    NormalizeIsIdempotent(g);
    assert Normalized(g).value.currency != "";
    Policy.PaymentVerdict(ToRules(Normalized(g).value), i);
  }

  /** On the crypto rail a user's limits bind nothing: every amount goes to every recipient without a question. */
  lemma {:induction false} LimitsIgnoreCrypto(g: Limits, i: Policy.Input)
    requires Normalized(g).Ok? && Policy.IsCryptoRail(i)
    ensures var r := ToRules(Normalized(g).value);
            && Policy.EvaluatePurchaseIntent(r, i).Ok? && Policy.EvaluatePayment(r, i).Ok?
            && Policy.EvaluatePurchaseIntent(r, i).value.decision == Policy.Allow
            && Policy.EvaluatePayment(r, i).value.decision == Policy.Allow
  {
    Policy.SeverityIsMax(ToRules(Normalized(g).value), i);
    Policy.RankTells(Policy.EvaluatePurchaseIntent(ToRules(Normalized(g).value), i).value.decision);
  }
}

/**
 * The payment service: resolving what a checkout charges (per plan type, then less a coupon),
 * opening a subscription for subscription plans that have a processor price, and the follow-up
 * once a payment succeeds (affiliate commission, coupon usage).
 */
module Payments {
  import opened Wrappers
  import opened Domain
  import opened Seqs
  import opened PaymentGateway
  import Pricing
  import Coupons
  import Affiliates
  import Wallets

  /** The bound that stands in for "no upper bound" (`MaxQty == -1`) in the tier scan. */
  const UnboundedCap: int := 1000000000

  const PlanIdKey: string := "plan_id"
  const UserIdKey: string := "user_id"
  const AffiliateCodeKey: string := "affiliate_code"
  const CouponCodeKey: string := "coupon_code"

  /** The amount and currency a checkout asks the processor to collect. */
  datatype Charge = Charge(amount: real, currency: string)

  // ---------------------------------------------------------------------------------------------
  // Tiered plans

  /** The largest quantity a tier accepts; "no upper bound" is capped, not infinite. */
  function TierCap(t: TierItem): (cap: int)
    ensures t.maxQty == -1 ==> cap == UnboundedCap
    ensures t.maxQty != -1 ==> cap == t.maxQty
  {
    if t.maxQty == -1 then UnboundedCap else t.maxQty
  }

  /** The filter of the tier scan: the quantity lies in the tier's range. */
  function Fits(q: int): TierItem -> bool
  {
    (t: TierItem) => t.minQty <= q <= TierCap(t)
  }

  /** A quantity of zero or less is read as one. */
  function EffectiveQuantity(quantity: int): (q: int)
    ensures q >= 1
    ensures quantity > 0 ==> q == quantity
    ensures quantity <= 0 ==> q == 1
  {
    if quantity <= 0 then 1 else quantity
  }

  /** The tier the scan settles on: the first one, in list order, whose range holds `q`. */
  function TierIndex(tiers: seq<TierItem>, q: int): Option<nat>
  {
    FirstWhere(tiers, Fits(q))
  }

  /** The tier the scan settles on, if any. */
  function ChosenTier(tiers: seq<TierItem>, q: int): Option<TierItem>
  {
    match TierIndex(tiers, q)
    case None => None
    case Some(k) => Some(tiers[k])
  }

  /**
   * A tier is chosen exactly when some tier's range holds the quantity, and the one chosen is the
   * first such tier in list order.
   */
  lemma ChosenTierFirstMatch(tiers: seq<TierItem>, q: int)
    ensures ChosenTier(tiers, q).Some? <==> exists k :: 0 <= k < |tiers| && tiers[k].minQty <= q <= TierCap(tiers[k])
    ensures forall k :: 0 <= k < |tiers| && tiers[k].minQty <= q <= TierCap(tiers[k])
                        && (forall j :: 0 <= j < k ==> !(tiers[j].minQty <= q <= TierCap(tiers[j]))) ==>
      ChosenTier(tiers, q) == Some(tiers[k])
  {
    match TierIndex(tiers, q)
    case None =>
      assert forall k :: 0 <= k < |tiers| ==> !Fits(q)(tiers[k]);
    case Some(i) =>
      assert tiers[i].minQty <= q <= TierCap(tiers[i]);
      assert forall j :: 0 <= j < i ==> !(tiers[j].minQty <= q <= TierCap(tiers[j])) by {
        forall j | 0 <= j < i
          ensures !(tiers[j].minQty <= q <= TierCap(tiers[j]))
        {
          assert !Fits(q)(tiers[j]);
        }
      }
  }

  /** The charge for a tiered plan: the chosen tier's unit price times the quantity, always in USD. */
  function TieredCharge(tiers: seq<TierItem>, quantity: int): (r: Result<Charge>)
    ensures r.Ok? <==> ChosenTier(tiers, EffectiveQuantity(quantity)).Some?
    ensures r.Err? ==> r.msg == "invalid quantity"
    ensures r.Ok? ==> r.value.currency == Usd
    ensures r.Ok? ==>
      r.value.amount == ChosenTier(tiers, EffectiveQuantity(quantity)).value.unitPrice * EffectiveQuantity(quantity) as real
  {
    var q := EffectiveQuantity(quantity);
    match ChosenTier(tiers, q)
    case None => Err("invalid quantity")
    case Some(t) => Ok(Charge(t.unitPrice * q as real, Usd))
  }

  /** A quantity of zero or less is charged as a quantity of one. */
  lemma TieredQuantityDefault(tiers: seq<TierItem>, quantity: int)
    requires quantity <= 0
    ensures TieredCharge(tiers, quantity) == TieredCharge(tiers, 1)
  {
    assert EffectiveQuantity(quantity) == EffectiveQuantity(1) == 1;
    match ChosenTier(tiers, 1)
    case None =>
    case Some(t) =>
      assert ChosenTier(tiers, EffectiveQuantity(quantity)) == Some(t);
      assert TieredCharge(tiers, quantity).Ok?;
      assert TieredCharge(tiers, quantity).value.amount == t.unitPrice * 1 as real;
      assert TieredCharge(tiers, 1).value.amount == t.unitPrice * 1 as real;
  }

  /** Two tiers, 1-10 at 10 and 11 upwards at 8: five units cost 50, fifty units 400, and no quantity goes unpriced. */
  lemma TwoTierExample(quantity: int)
    ensures var tiers := [TierItem("Tier 1", 1, 10, 10.0), TierItem("Tier 2", 11, -1, 8.0)];
      && TieredCharge(tiers, 5) == Ok(Charge(50.0, Usd))
      && TieredCharge(tiers, 50) == Ok(Charge(400.0, Usd))
      && (1 <= EffectiveQuantity(quantity) <= UnboundedCap ==> TieredCharge(tiers, quantity).Ok?)
  {
    var tiers := [TierItem("Tier 1", 1, 10, 10.0), TierItem("Tier 2", 11, -1, 8.0)];
    assert Fits(5)(tiers[0]);
    assert !Fits(50)(tiers[0]) && Fits(50)(tiers[1]);
    assert TierIndex(tiers, 50) == Some(1);
    var q := EffectiveQuantity(quantity);
    if 1 <= q <= UnboundedCap {
      assert Fits(q)(tiers[0]) || Fits(q)(tiers[1]);
    }
  }

  /** Even a tier with no upper bound refuses a quantity above the cap. */
  lemma UnboundedTierIsCapped(t: TierItem, quantity: int)
    requires t.maxQty == -1 && quantity > UnboundedCap
    ensures TieredCharge([t], quantity) == Err("invalid quantity")
  {
    assert !Fits(quantity)(t);
  }

  /** The tier loop: first tier whose range holds `q`, leaving the loop at the first hit. */
  method ScanTiers(tiers: seq<TierItem>, q: int) returns (unitPrice: real, found: bool)
    ensures found <==> TierIndex(tiers, q).Some?
    ensures found ==> unitPrice == tiers[TierIndex(tiers, q).value].unitPrice
  {
    unitPrice, found := 0.0, false;
    var i := 0;
    while i < |tiers|
      invariant 0 <= i <= |tiers|
      invariant !found
      invariant forall j :: 0 <= j < i ==> !Fits(q)(tiers[j])
    {
      var max := tiers[i].maxQty;
      if max == -1 {
        max := UnboundedCap;
      }
      if q >= tiers[i].minQty && q <= max {
        assert Fits(q)(tiers[i]);
        unitPrice, found := tiers[i].unitPrice, true;
        break;
      }
      i := i + 1;
    }
  }

  // ---------------------------------------------------------------------------------------------
  // Split plans: the division as the service writes it, and as it is meant

  /** A Go `float64`: a finite value or one of the IEEE 754 special values. */
  datatype Float64 = Finite(value: real) | PosInf | NegInf | NaN

  /** Floating-point division: a zero divisor gives an infinity of the dividend's sign, or NaN for 0/0. */
  function FloatDivide(a: real, b: real): (r: Float64)
    ensures b != 0.0 ==> r.Finite? && r.value * b == a
    ensures b == 0.0 && a > 0.0 ==> r == PosInf
    ensures b == 0.0 && a == 0.0 ==> r == NaN
  {
    if b != 0.0 then Finite(a / b)
    else if a > 0.0 then PosInf
    else if a < 0.0 then NegInf
    else NaN
  }

  /** The split amount exactly as the service computes it, with no guard on the installment count. */
  function SplitAmountAsWritten(c: SplitConfig): (r: Float64)
    ensures c.upfrontPayment > 0.0 ==> r == Finite(c.upfrontPayment)
    ensures c.upfrontPayment <= 0.0 && c.installmentCount != 0 ==>
      r.Finite? && r.value * c.installmentCount as real == c.totalAmount
    ensures c.upfrontPayment <= 0.0 && c.installmentCount == 0 && c.totalAmount > 0.0 ==> r == PosInf
  {
    if c.upfrontPayment > 0.0 then Finite(c.upfrontPayment)
    else FloatDivide(c.totalAmount, c.installmentCount as real)
  }

  /**
   * A split plan with no upfront payment and zero installments passes plan creation (which only
   * checks the total), yet the amount the service then asks the processor to collect is +Inf.
   */
  lemma SplitZeroInstallmentsAsWritten(p: PricingPlan, now: int)
    requires p.planType == SplitType && p.name != "" && p.splitConfig.Some?
    requires p.splitConfig.value.totalAmount > 0.0
    requires p.splitConfig.value.installmentCount == 0 && p.splitConfig.value.upfrontPayment <= 0.0
    requires p.limitedSell.None? && p.earlyBird.None? && p.accessDuration.None?
    ensures Pricing.CheckPlan(p, now) == Pass
    ensures SplitAmountAsWritten(p.splitConfig.value) == PosInf
  {
  }

  /**
   * A split plan with no upfront payment and a negative installment count also passes plan
   * creation; the service then computes a negative amount to collect, which the corrected charge
   * refuses.
   */
  lemma SplitNegativeInstallmentsAsWritten(p: PricingPlan, now: int)
    requires p.planType == SplitType && p.name != "" && p.splitConfig.Some?
    requires p.splitConfig.value.totalAmount > 0.0
    requires p.splitConfig.value.installmentCount < 0 && p.splitConfig.value.upfrontPayment <= 0.0
    requires p.limitedSell.None? && p.earlyBird.None? && p.accessDuration.None?
    ensures Pricing.CheckPlan(p, now) == Pass
    ensures SplitAmountAsWritten(p.splitConfig.value).Finite?
    ensures SplitAmountAsWritten(p.splitConfig.value).value < 0.0
    ensures BaseCharge(p, 0.0, 0) == Err("invalid installment count")
  {
    var c := p.splitConfig.value;
    var n := c.installmentCount as real;
    var a := SplitAmountAsWritten(c).value;
    assert a * n == c.totalAmount;
  }

  /** The split charge as intended: the upfront part, else one installment; no installments is an error. */
  function SplitCharge(c: SplitConfig): (r: Result<Charge>)
    ensures r.Ok? <==> c.upfrontPayment > 0.0 || c.installmentCount > 0
    ensures r.Err? ==> r.msg == "invalid installment count"
    ensures r.Ok? ==> r.value.currency == c.currency
    ensures c.upfrontPayment > 0.0 ==> r == Ok(Charge(c.upfrontPayment, c.currency))
    ensures c.upfrontPayment <= 0.0 && r.Ok? ==> r.value.amount * c.installmentCount as real == c.totalAmount
  {
    if c.upfrontPayment > 0.0 then Ok(Charge(c.upfrontPayment, c.currency))
    else if c.installmentCount <= 0 then Err("invalid installment count")
    else Ok(Charge(c.totalAmount / c.installmentCount as real, c.currency))
  }

  /**
   * Wherever the service's amount is a meaningful one (an upfront payment, or a positive number of
   * installments), the corrected charge agrees with it.
   */
  lemma SplitChargeAgreesWhereDefined(c: SplitConfig)
    requires c.upfrontPayment > 0.0 || c.installmentCount > 0
    ensures SplitAmountAsWritten(c) == Finite(SplitCharge(c).value.amount)
  {
  }

  /** For a stored split plan the corrected charge is positive whenever it exists. */
  lemma SplitChargePositive(p: PricingPlan)
    requires Pricing.TypeConfigValid(p) && p.planType == SplitType
    ensures SplitCharge(p.splitConfig.value).Ok? ==> SplitCharge(p.splitConfig.value).value.amount > 0.0
  {
    var c := p.splitConfig.value;
    if c.upfrontPayment <= 0.0 && c.installmentCount > 0 {
      var n := c.installmentCount as real;
      var a := c.totalAmount / n;
      assert a * n == c.totalAmount;
    }
  }

  // ---------------------------------------------------------------------------------------------
  // The amount switch

  /** What a one-off checkout charges before any coupon, or the error that stops it. */
  function BaseCharge(p: PricingPlan, inputAmount: real, quantity: int): (r: Result<Charge>)
    requires HasTypeConfig(p)
    ensures r.Err? && KnownType(p.planType) ==>
      r.msg in {"invalid installment count", "donation amount below minimum", "invalid quantity"}
    ensures !KnownType(p.planType) ==> r == Err("unsupported plan type")
  {
    if p.planType == OneTimeType then
      Ok(Charge(p.oneTimeConfig.value.price, p.oneTimeConfig.value.currency))
    else if p.planType == SubscriptionType then
      Ok(Charge(p.subscriptionConfig.value.price, p.subscriptionConfig.value.currency))
    else if p.planType == BundleType then
      Ok(Charge(p.bundleConfig.value.price, Usd))
    else if p.planType == SplitType then
      SplitCharge(p.splitConfig.value)
    else if p.planType == DonationType then
      if inputAmount < p.donationConfig.value.minAmount then Err("donation amount below minimum")
      else Ok(Charge(inputAmount, p.donationConfig.value.currency))
    else if p.planType == TieredType then
      TieredCharge(p.tieredConfig.value.tiers, quantity)
    else
      Err("unsupported plan type")
  }

  /**
   * One-time and subscription plans are charged exactly the price the pricing service quotes, and
   * one-time, subscription and bundle plans exactly the base price coupons are measured against;
   * a bundle is always charged in USD.
   */
  lemma FixedPriceCharges(p: PricingPlan, inputAmount: real, quantity: int)
    requires HasTypeConfig(p)
    requires p.planType in {OneTimeType, SubscriptionType, BundleType}
    ensures BaseCharge(p, inputAmount, quantity).Ok?
    ensures BaseCharge(p, inputAmount, quantity).value.amount == Coupons.BasePrice(p)
    ensures p.planType != BundleType ==>
      Pricing.FinalPrice(p) == Ok(BaseCharge(p, inputAmount, quantity).value.amount)
    ensures p.planType == BundleType ==> BaseCharge(p, inputAmount, quantity).value.currency == Usd
    ensures p.planType == OneTimeType ==> BaseCharge(p, inputAmount, quantity).value.currency == p.oneTimeConfig.value.currency
    ensures p.planType == SubscriptionType ==>
      BaseCharge(p, inputAmount, quantity).value.currency == p.subscriptionConfig.value.currency
  {
  }

  /** A donation is accepted exactly when it reaches the minimum, and is then charged as given. */
  lemma DonationCharge(p: PricingPlan, inputAmount: real, quantity: int)
    requires HasTypeConfig(p) && p.planType == DonationType
    ensures BaseCharge(p, inputAmount, quantity).Ok? <==> inputAmount >= p.donationConfig.value.minAmount
    ensures BaseCharge(p, inputAmount, quantity).Ok? ==>
      BaseCharge(p, inputAmount, quantity) == Ok(Charge(inputAmount, p.donationConfig.value.currency))
    ensures BaseCharge(p, inputAmount, quantity).Err? ==>
      BaseCharge(p, inputAmount, quantity).msg == "donation amount below minimum"
  {
  }

  /** For a stored plan with non-negative unit prices, no checkout charge is negative. */
  lemma BaseChargeNonNegative(p: PricingPlan, inputAmount: real, quantity: int)
    requires Pricing.TypeConfigValid(p)
    requires p.planType == TieredType ==>
      forall i :: 0 <= i < |p.tieredConfig.value.tiers| ==> p.tieredConfig.value.tiers[i].unitPrice >= 0.0
    ensures BaseCharge(p, inputAmount, quantity).Ok? ==> BaseCharge(p, inputAmount, quantity).value.amount >= 0.0
  {
    if p.planType == SplitType {
      SplitChargePositive(p);
    } else if p.planType == TieredType {
      var tiers := p.tieredConfig.value.tiers;
      var q := EffectiveQuantity(quantity);
      match TierIndex(tiers, q)
      case None =>
      case Some(k) =>
        assert tiers[k].unitPrice * q as real >= 0.0;
    }
  }

  /** The amount switch as the service runs it, with the tier loop. */
  method ResolveCharge(p: PricingPlan, inputAmount: real, quantity: int) returns (r: Result<Charge>)
    requires HasTypeConfig(p)
    ensures r == BaseCharge(p, inputAmount, quantity)
  {
    if p.planType == OneTimeType {
      r := Ok(Charge(p.oneTimeConfig.value.price, p.oneTimeConfig.value.currency));
    } else if p.planType == SubscriptionType {
      r := Ok(Charge(p.subscriptionConfig.value.price, p.subscriptionConfig.value.currency));
    } else if p.planType == BundleType {
      r := Ok(Charge(p.bundleConfig.value.price, Usd));
    } else if p.planType == SplitType {
      var c := p.splitConfig.value;
      if c.upfrontPayment > 0.0 {
        r := Ok(Charge(c.upfrontPayment, c.currency));
      } else if c.installmentCount <= 0 {
        r := Err("invalid installment count");
      } else {
        r := Ok(Charge(c.totalAmount / c.installmentCount as real, c.currency));
      }
    } else if p.planType == DonationType {
      if inputAmount < p.donationConfig.value.minAmount {
        r := Err("donation amount below minimum");
      } else {
        r := Ok(Charge(inputAmount, p.donationConfig.value.currency));
      }
    } else if p.planType == TieredType {
      var q := quantity;
      if q <= 0 {
        q := 1;
      }
      assert q == EffectiveQuantity(quantity);
      var tiers := p.tieredConfig.value.tiers;
      var unitPrice, found := ScanTiers(tiers, q);
      if !found {
        r := Err("invalid quantity");
      } else {
        r := Ok(Charge(unitPrice * q as real, Usd));
        assert ChosenTier(tiers, q).value.unitPrice == unitPrice;
        assert r.value.amount == TieredCharge(tiers, quantity).value.amount;
      }
    } else {
      r := Err("unsupported plan type");
    }
  }

  // ---------------------------------------------------------------------------------------------
  // Coupon deduction and metadata

  /** The amount after a discount, never below zero. */
  function Discounted(amount: real, discount: real): (r: real)
    ensures r >= 0.0
    ensures amount - discount >= 0.0 ==> r == amount - discount
    ensures amount - discount < 0.0 ==> r == 0.0
    ensures discount >= 0.0 && amount >= 0.0 ==> r <= amount
  {
    if amount - discount < 0.0 then 0.0 else amount - discount
  }

  /** The metadata attached to a payment or subscription; optional codes appear only when given. */
  function Metadata(planId: string, userId: string, affiliateCode: string, couponCode: string)
    : (m: map<string, string>)
    ensures PlanIdKey in m && m[PlanIdKey] == planId
    ensures UserIdKey in m && m[UserIdKey] == userId
    ensures AffiliateCodeKey in m <==> affiliateCode != ""
    ensures AffiliateCodeKey in m ==> m[AffiliateCodeKey] == affiliateCode
    ensures CouponCodeKey in m <==> couponCode != ""
    ensures CouponCodeKey in m ==> m[CouponCodeKey] == couponCode
    ensures m.Keys <= {PlanIdKey, UserIdKey, AffiliateCodeKey, CouponCodeKey}
  {
    var m := map[PlanIdKey := planId, UserIdKey := userId];
    var m := if affiliateCode != "" then m[AffiliateCodeKey := affiliateCode] else m;
    if couponCode != "" then m[CouponCodeKey := couponCode] else m
  }

  /** The value the success handler reads for `key`; an absent key reads as empty. */
  function Lookup(m: map<string, string>, key: string): string
  {
    if key in m then m[key] else ""
  }

  /** The codes a checkout writes are the codes the success handler reads back. */
  lemma MetadataRoundTrip(planId: string, userId: string, affiliateCode: string, couponCode: string)
    ensures Lookup(Metadata(planId, userId, affiliateCode, couponCode), AffiliateCodeKey) == affiliateCode
    ensures Lookup(Metadata(planId, userId, affiliateCode, couponCode), CouponCodeKey) == couponCode
  {
  }

  /**
   * The payment intent a one-off checkout requests, or the error that stops it first: the base
   * charge, then (when a coupon code is given) the coupon decision, whose error is prefixed.
   */
  function IntentRequest(plan: PricingPlan, coupons: seq<Coupon>, plans: seq<PricingPlan>, userId: string,
                         planId: string, affiliateCode: string, couponCode: string, inputAmount: real,
                         quantity: int, now: int): (r: Result<GatewayRequest>)
    requires HasTypeConfig(plan)
    requires forall i :: 0 <= i < |plans| ==> HasTypeConfig(plans[i])
    ensures r.Ok? ==>
      && r.value.CreatePaymentIntent?
      && r.value.metadata == Metadata(planId, userId, affiliateCode, couponCode)
      && BaseCharge(plan, inputAmount, quantity).Ok?
      && r.value.currency == BaseCharge(plan, inputAmount, quantity).value.currency
    ensures BaseCharge(plan, inputAmount, quantity).Err? ==> r == Err(BaseCharge(plan, inputAmount, quantity).msg)
    ensures couponCode == "" && BaseCharge(plan, inputAmount, quantity).Ok? ==>
      r.Ok? && r.value.amount == BaseCharge(plan, inputAmount, quantity).value.amount
    ensures couponCode != "" && BaseCharge(plan, inputAmount, quantity).Ok? ==>
      var v := Coupons.Verdict(coupons, plans, couponCode, planId, now);
      && (r.Ok? <==> v.Ok?)
      && (v.Err? ==> r == Err("invalid coupon: " + v.msg))
      && (v.Ok? ==> r.value.amount == Discounted(BaseCharge(plan, inputAmount, quantity).value.amount, v.value.1))
  {
    match BaseCharge(plan, inputAmount, quantity)
    case Err(e) => Err(e)
    case Ok(charge) =>
      var meta := Metadata(planId, userId, affiliateCode, couponCode);
      if couponCode == "" then Ok(CreatePaymentIntent(charge.amount, charge.currency, meta))
      else
        match Coupons.Verdict(coupons, plans, couponCode, planId, now)
        case Err(e) => Err("invalid coupon: " + e)
        case Ok((_, discount)) => Ok(CreatePaymentIntent(Discounted(charge.amount, discount), charge.currency, meta))
  }

  /**
   * With a stored plan and well-formed coupons, the amount of a requested payment intent is never
   * negative and never more than the plan's base charge: a coupon only lowers the price.
   */
  lemma IntentAmountBounds(plan: PricingPlan, coupons: seq<Coupon>, plans: seq<PricingPlan>, userId: string,
                           planId: string, affiliateCode: string, couponCode: string, inputAmount: real,
                           quantity: int, now: int)
    requires forall i :: 0 <= i < |plans| ==> HasTypeConfig(plans[i]) && Pricing.TypeConfigValid(plans[i])
    requires forall i :: 0 <= i < |coupons| ==> Coupons.WellFormed(coupons[i])
    requires Pricing.TypeConfigValid(plan) && plan.planType != TieredType
    requires IntentRequest(plan, coupons, plans, userId, planId, affiliateCode, couponCode, inputAmount, quantity, now).Ok?
    ensures var req := IntentRequest(plan, coupons, plans, userId, planId, affiliateCode, couponCode,
                                     inputAmount, quantity, now).value;
      0.0 <= req.amount <= BaseCharge(plan, inputAmount, quantity).value.amount
  {
    BaseChargeNonNegative(plan, inputAmount, quantity);
    if couponCode != "" {
      Coupons.AcceptedCouponBounds(coupons, plans, couponCode, planId, now);
    }
  }

  // ---------------------------------------------------------------------------------------------
  // Subscriptions

  /** Subscription plans registered with the processor take the subscription path. */
  predicate OnSubscriptionPath(p: PricingPlan)
  {
    p.planType == SubscriptionType && p.stripePriceId != ""
  }

  /** The by-id filter of user lookups. */
  function HasUserId(id: string): User -> bool
  {
    (u: User) => u.id == id
  }

  /** Position of the user `FindOne` by id returns. */
  function UserIndex(users: seq<User>, id: string): Option<nat>
  {
    FirstWhere(users, HasUserId(id))
  }

  /** The processor customer for `u`: the stored one, or the one a CreateCustomer (reply `n`) issues. */
  function CustomerFor(u: User, n: nat, respond: (nat, GatewayRequest) -> Result<string>): Result<string>
  {
    if u.stripeCustomerId != "" then Ok(u.stripeCustomerId)
    else respond(n, CreateCustomer(u.email, u.fullName))
  }

  /** The requests of the subscription path for user `u`, starting from a log of length `n`. */
  function SubscriptionRequests(u: User, priceId: string, meta: map<string, string>, n: nat,
                                respond: (nat, GatewayRequest) -> Result<string>): seq<GatewayRequest>
  {
    var created := if u.stripeCustomerId == "" then [CreateCustomer(u.email, u.fullName)] else [];
    match CustomerFor(u, n, respond)
    case Err(_) => created
    case Ok(customer) => created + [CreateSubscription(customer, priceId, meta)]
  }

  /** What the subscription path returns: the processor's subscription reply, or the customer error. */
  function SubscriptionReply(u: User, priceId: string, meta: map<string, string>, n: nat,
                             respond: (nat, GatewayRequest) -> Result<string>): Result<string>
  {
    var next := if u.stripeCustomerId == "" then n + 1 else n;
    match CustomerFor(u, n, respond)
    case Err(e) => Err(e)
    case Ok(customer) => respond(next, CreateSubscription(customer, priceId, meta))
  }

  /** The stored user afterwards: a newly issued customer id is saved, with `updatedAt` moved to `now`. */
  function Registered(u: User, n: nat, respond: (nat, GatewayRequest) -> Result<string>, now: int): (r: User)
    ensures r.(stripeCustomerId := u.stripeCustomerId, updatedAt := u.updatedAt) == u
    ensures u.stripeCustomerId != "" ==> r == u
  {
    if u.stripeCustomerId == "" && CustomerFor(u, n, respond).Ok? then
      u.(stripeCustomerId := CustomerFor(u, n, respond).value, updatedAt := now)
    else u
  }

  /**
   * A customer is created only for a user without one; the subscription path never requests a
   * payment intent, so no coupon amount is ever deducted there; and a subscription is requested,
   * for the user's customer and the plan's price, unless creating the customer failed.
   */
  lemma SubscriptionPathRequests(u: User, priceId: string, meta: map<string, string>, n: nat,
                                 respond: (nat, GatewayRequest) -> Result<string>)
    ensures var reqs := SubscriptionRequests(u, priceId, meta, n, respond);
      && ((exists i :: 0 <= i < |reqs| && reqs[i].CreateCustomer?) <==> u.stripeCustomerId == "")
      && (forall i :: 0 <= i < |reqs| ==> !reqs[i].CreatePaymentIntent?)
      && (CustomerFor(u, n, respond).Ok? <==> |reqs| > 0 && reqs[|reqs| - 1].CreateSubscription?)
      && (CustomerFor(u, n, respond).Ok? ==>
            reqs[|reqs| - 1] == CreateSubscription(CustomerFor(u, n, respond).value, priceId, meta))
    ensures SubscriptionReply(u, priceId, meta, n, respond).Err? && CustomerFor(u, n, respond).Err? ==>
      u.stripeCustomerId == "" && SubscriptionRequests(u, priceId, meta, n, respond) == [CreateCustomer(u.email, u.fullName)]
  {
    var reqs := SubscriptionRequests(u, priceId, meta, n, respond);
    if u.stripeCustomerId == "" {
      assert reqs[0].CreateCustomer?;
    } else {
      assert CustomerFor(u, n, respond).Ok?;
    }
  }

  // ---------------------------------------------------------------------------------------------
  // After a successful payment

  /**
   * The affiliate side of a successful payment, from the commissions, wallets and ledger before
   * (`c0`, `w0`, `l0`) to those after (`c1`, `w1`, `l1`). Without a code nothing happens. An
   * unknown code fails with the store's not-found error and records nothing. Otherwise the paid
   * commission is recorded and settled to the affiliate's wallet; the step fails exactly when the
   * commission earned nothing.
   */
  ghost predicate ReferralSettled(links: seq<AffiliateLink>, programs: seq<AffiliateProgram>, code: string,
                                  amount: real, orderId: string, now: int, o: Outcome,
                                  c0: seq<Commission>, w0: seq<Wallet>, l0: seq<WalletTransaction>,
                                  c1: seq<Commission>, w1: seq<Wallet>, l1: seq<WalletTransaction>)
  {
    if code == "" then
      o == Pass && c1 == c0 && w1 == w0 && l1 == l0
    else
      match Affiliates.Referral(links, programs, code)
      case None => o == Fail(NoDocuments) && c1 == c0 && w1 == w0 && l1 == l0
      case Some((link, program)) =>
        var c := Affiliates.CommissionOf(link, program, orderId, amount, now, |c0|);
        && c1 == c0 + [c]
        && Affiliates.Settled(w0, l0, w1, l1, c, now)
        && o == (if c.earnedAmount > 0.0 then Pass else Fail("amount must be positive"))
  }

  // ---------------------------------------------------------------------------------------------
  // The service

  class PaymentService {
    /** The user repository. */
    var users: seq<User>
    const gateway: Gateway
    const pricing: Pricing.PricingService
    const coupons: Coupons.CouponService
    const affiliates: Affiliates.AffiliateService

    /** The collaborating services keep their own invariants and share this service's processor and plans. */
    ghost predicate Valid()
      reads this, pricing, coupons, affiliates, affiliates.wallets
    {
      && pricing.Valid() && pricing.gateway == gateway
      && coupons.Valid() && coupons.pricing == pricing
      && affiliates.Valid()
    }

    constructor (users: seq<User>, pricing: Pricing.PricingService, coupons: Coupons.CouponService,
                 affiliates: Affiliates.AffiliateService)
      requires pricing.Valid() && coupons.Valid() && coupons.pricing == pricing && affiliates.Valid()
      ensures Valid() && this.users == users && gateway == pricing.gateway
      ensures this.pricing == pricing && this.coupons == coupons && this.affiliates == affiliates
    {
      this.users := users;
      this.gateway := pricing.gateway;
      this.pricing := pricing;
      this.coupons := coupons;
      this.affiliates := affiliates;
    }

    /** The subscription path for the user at position `k`. */
    method Subscribe(k: nat, priceId: string, meta: map<string, string>, now: int) returns (r: Result<string>)
      requires k < |users|
      modifies this, gateway
      ensures r == SubscriptionReply(old(users)[k], priceId, meta, |old(gateway.log)|, gateway.respond)
      ensures gateway.log ==
        old(gateway.log) + SubscriptionRequests(old(users)[k], priceId, meta, |old(gateway.log)|, gateway.respond)
      ensures users == old(users)[k := Registered(old(users)[k], |old(gateway.log)|, gateway.respond, now)]
    {
      var user := users[k];
      if user.stripeCustomerId == "" {
        var customer := gateway.Call(CreateCustomer(user.email, user.fullName));
        if customer.Err? {
          return Err(customer.msg);
        }
        user := user.(stripeCustomerId := customer.value, updatedAt := now);
        users := users[k := user];
      }
      r := gateway.Call(CreateSubscription(user.stripeCustomerId, priceId, meta));
    }

    /**
     * InitiateCheckout: reads the plan; a subscription plan with a processor price opens a
     * subscription (creating the customer if needed, no coupon); any other plan is charged its
     * resolved amount less the coupon discount through one payment intent.
     */
    method InitiateCheckout(userId: string, planId: string, affiliateCode: string, couponCode: string,
                            inputAmount: real, quantity: int, now: int) returns (r: Result<string>)
      requires Valid()
      modifies this, gateway
      ensures Valid()
      ensures Pricing.FindPlan(pricing.plans, planId).Err? ==>
        r == Err(NoDocuments) && users == old(users) && gateway.log == old(gateway.log)
      ensures Pricing.FindPlan(pricing.plans, planId).Ok? ==>
        var plan := Pricing.FindPlan(pricing.plans, planId).value;
        var meta := Metadata(planId, userId, affiliateCode, couponCode);
        && (OnSubscriptionPath(plan) && UserIndex(old(users), userId).None? ==>
              r == Err(NoDocuments) && users == old(users) && gateway.log == old(gateway.log))
        && (OnSubscriptionPath(plan) && UserIndex(old(users), userId).Some? ==>
              var k := UserIndex(old(users), userId).value;
              var n := |old(gateway.log)|;
              && r == SubscriptionReply(old(users)[k], plan.stripePriceId, meta, n, gateway.respond)
              && gateway.log == old(gateway.log) +
                   SubscriptionRequests(old(users)[k], plan.stripePriceId, meta, n, gateway.respond)
              && users == old(users)[k := Registered(old(users)[k], n, gateway.respond, now)])
        && (!OnSubscriptionPath(plan) ==>
              var intent := IntentRequest(plan, coupons.coupons, pricing.plans, userId, planId, affiliateCode,
                                          couponCode, inputAmount, quantity, now);
              && users == old(users)
              && (intent.Err? ==> r == Err(intent.msg) && gateway.log == old(gateway.log))
              && (intent.Ok? ==> r == old(gateway.NextReply(intent.value))
                                 && gateway.log == old(gateway.log) + [intent.value]))
    {
      var found := pricing.GetPlan(planId);
      if found.Err? {
        return Err(found.msg);
      }
      var plan := found.value;
      assert HasTypeConfig(plan) by {
        var j := PlanIndexOf(planId);
      }
      var meta := Metadata(planId, userId, affiliateCode, couponCode);
      if plan.planType == SubscriptionType && plan.stripePriceId != "" {
        r := OpenSubscription(userId, plan.stripePriceId, meta, now);
      } else {
        r := PayOnce(plan, userId, planId, affiliateCode, couponCode, inputAmount, quantity, now);
      }
    }

    /** The subscription path: the user must exist; then the subscription is opened for them. */
    method OpenSubscription(userId: string, priceId: string, meta: map<string, string>, now: int)
      returns (r: Result<string>)
      modifies this, gateway
      ensures UserIndex(old(users), userId).None? ==>
        r == Err(NoDocuments) && users == old(users) && gateway.log == old(gateway.log)
      ensures UserIndex(old(users), userId).Some? ==>
        var k := UserIndex(old(users), userId).value;
        var n := |old(gateway.log)|;
        && r == SubscriptionReply(old(users)[k], priceId, meta, n, gateway.respond)
        && gateway.log == old(gateway.log) + SubscriptionRequests(old(users)[k], priceId, meta, n, gateway.respond)
        && users == old(users)[k := Registered(old(users)[k], n, gateway.respond, now)]
    {
      var k := UserIndex(users, userId);
      if k.None? {
        return Err(NoDocuments);
      }
      r := Subscribe(k.value, priceId, meta, now);
    }

    /** The one-off path: resolve the charge, deduct a coupon if one is given, request the payment intent. */
    method PayOnce(plan: PricingPlan, userId: string, planId: string, affiliateCode: string, couponCode: string,
                   inputAmount: real, quantity: int, now: int) returns (r: Result<string>)
      requires pricing.Valid() && coupons.Valid() && coupons.pricing == pricing && HasTypeConfig(plan)
      modifies gateway
      ensures var intent := IntentRequest(plan, coupons.coupons, pricing.plans, userId, planId, affiliateCode,
                                          couponCode, inputAmount, quantity, now);
        && (intent.Err? ==> r == Err(intent.msg) && gateway.log == old(gateway.log))
        && (intent.Ok? ==> r == old(gateway.NextReply(intent.value)) && gateway.log == old(gateway.log) + [intent.value])
    {
      var charge := ResolveCharge(plan, inputAmount, quantity);
      if charge.Err? {
        return Err(charge.msg);
      }
      var amount := charge.value.amount;
      if couponCode != "" {
        var verdict := coupons.ValidateCoupon(couponCode, planId, now);
        if verdict.Err? {
          return Err("invalid coupon: " + verdict.msg);
        }
        amount := amount - verdict.value.1;
        if amount < 0.0 {
          amount := 0.0;
        }
      }
      var meta := Metadata(planId, userId, affiliateCode, couponCode);
      r := gateway.Call(CreatePaymentIntent(amount, charge.value.currency, meta));
    }

    /** The stored plan with that id has its type configuration (every stored plan passed validation). */
    lemma PlanIndexOf(planId: string) returns (j: nat)
      requires pricing.Valid() && Pricing.FindPlan(pricing.plans, planId).Ok?
      ensures j < |pricing.plans| && pricing.plans[j] == Pricing.FindPlan(pricing.plans, planId).value
      ensures HasTypeConfig(pricing.plans[j])
    {
      j := Pricing.PlanIndex(pricing.plans, planId).value;
    }

    /** The commission step of ProcessPaymentSuccess; it is skipped when no affiliate code was recorded. */
    method SettleReferral(code: string, amount: real, orderId: string, now: int) returns (o: Outcome)
      requires Valid()
      modifies affiliates, affiliates.wallets
      ensures Valid()
      ensures affiliates.programs == old(affiliates.programs) && affiliates.links == old(affiliates.links)
      ensures affiliates.wallets.payouts == old(affiliates.wallets.payouts)
      ensures ReferralSettled(affiliates.links, affiliates.programs, code, amount, orderId, now, o,
                              old(affiliates.commissions), old(affiliates.wallets.wallets), old(affiliates.wallets.ledger),
                              affiliates.commissions, affiliates.wallets.wallets, affiliates.wallets.ledger)
    {
      o := Pass;
      if code != "" {
        var commission := affiliates.ProcessCommission(orderId, amount, code, now);
        if commission.Err? {
          o := Fail(commission.msg);
        }
      }
    }

    /**
     * ProcessPaymentSuccess: a non-empty affiliate code settles a commission (and its error is
     * returned, skipping the coupon step); a non-empty coupon code then counts one use, ignoring
     * any error.
     */
    method ProcessPaymentSuccess(amount: real, currency: string, metadata: map<string, string>,
                                 orderId: string, now: int) returns (o: Outcome)
      requires Valid()
      modifies affiliates, affiliates.wallets, coupons
      ensures Valid()
      ensures affiliates.programs == old(affiliates.programs) && affiliates.links == old(affiliates.links)
      ensures affiliates.wallets.payouts == old(affiliates.wallets.payouts)
      ensures ReferralSettled(affiliates.links, affiliates.programs, Lookup(metadata, AffiliateCodeKey), amount, orderId,
                              now, o, old(affiliates.commissions), old(affiliates.wallets.wallets),
                              old(affiliates.wallets.ledger), affiliates.commissions, affiliates.wallets.wallets,
                              affiliates.wallets.ledger)
      ensures o.Fail? ==> coupons.coupons == old(coupons.coupons)
      ensures o.Pass? ==>
        coupons.coupons == (if Lookup(metadata, CouponCodeKey) != ""
                            then Coupons.Used(old(coupons.coupons), Lookup(metadata, CouponCodeKey))
                            else old(coupons.coupons))
    {
      o := SettleReferral(Lookup(metadata, AffiliateCodeKey), amount, orderId, now);
      if o.Fail? {
        return;
      }
      CountCouponUse(Lookup(metadata, CouponCodeKey));
    }

    /** The coupon step of ProcessPaymentSuccess: one more use of a recorded code; its error is ignored. */
    method CountCouponUse(code: string)
      requires Valid()
      modifies coupons
      ensures Valid()
      ensures coupons.coupons == (if code != "" then Coupons.Used(old(coupons.coupons), code) else old(coupons.coupons))
    {
      if code != "" {
        var _ := coupons.ApplyCoupon(code);
      }
    }
  }
}

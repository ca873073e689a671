/**
 * The coupon service: creating coupons, deciding whether a code may be used on a plan and how
 * much it takes off, and counting a use once a payment succeeds.
 */
module Coupons {
  import opened Wrappers
  import opened Domain
  import opened Seqs
  import Pricing

  const FixedDiscount: string := "fixed"
  const PercentDiscount: string := "percent"

  // ---------------------------------------------------------------------------------------------
  // Creation

  /** The field rules CreateCoupon enforces before touching the store. */
  predicate WellFormed(c: Coupon)
  {
    c.code != "" && c.discountAmount > 0.0 && (c.discountType == PercentDiscount ==> c.discountAmount <= 100.0)
  }

  /** CreateCoupon's checks, first failure wins. */
  function CheckNewCoupon(c: Coupon): (o: Outcome)
    ensures o.Pass? <==> WellFormed(c)
    ensures c.code == "" ==> o == Fail("coupon code is required")
    ensures c.code != "" && c.discountAmount <= 0.0 ==> o == Fail("discount amount must be greater than 0")
  {
    if c.code == "" then Fail("coupon code is required")
    else if c.discountAmount <= 0.0 then Fail("discount amount must be greater than 0")
    else if c.discountType == PercentDiscount && c.discountAmount > 100.0 then
      Fail("percentage discount cannot exceed 100%")
    else Pass
  }

  /** The stored form of a new coupon: active, unused, stamped with `now`, with the store's id. */
  function Issued(c: Coupon, now: int, n: nat): (r: Coupon)
    ensures r.isActive && r.usedCount == 0 && r.createdAt == now && r.id == MintedId(n)
    ensures r.(id := c.id, isActive := c.isActive, usedCount := c.usedCount, createdAt := c.createdAt) == c
  {
    c.(id := MintedId(n), isActive := true, usedCount := 0, createdAt := now)
  }

  // ---------------------------------------------------------------------------------------------
  // Validation

  /** Position of the coupon `FindOne` by code returns. */
  function CouponIndex(coupons: seq<Coupon>, code: string): Option<nat>
  {
    FirstWhere(coupons, (c: Coupon) => c.code == code)
  }

  /** Whether a stored coupon may be used on plan `planId` at time `now`, before the plan is read. */
  predicate Usable(c: Coupon, planId: string, now: int)
  {
    && c.isActive
    && (c.expiryDate.Some? ==> c.expiryDate.value >= now)
    && (c.maxUses > 0 ==> c.usedCount < c.maxUses)
    && (|c.applicablePlanIds| > 0 ==> planId in c.applicablePlanIds)
  }

  /** The coupon-side checks of ValidateCoupon in the service's order; None when all pass. */
  function Rejection(c: Coupon, planId: string, now: int): (r: Option<string>)
    ensures r.None? <==> Usable(c, planId, now)
    ensures !c.isActive ==> r == Some("coupon is inactive")
    ensures c.isActive && c.expiryDate.Some? && c.expiryDate.value < now ==> r == Some("coupon established")
    ensures (c.isActive && (c.expiryDate.Some? ==> c.expiryDate.value >= now) && c.maxUses > 0
             && c.usedCount >= c.maxUses) ==> r == Some("coupon usage limit reached")
    ensures (c.isActive && (c.expiryDate.Some? ==> c.expiryDate.value >= now) && (c.maxUses > 0 ==> c.usedCount < c.maxUses)
             && |c.applicablePlanIds| > 0 && planId !in c.applicablePlanIds) ==>
      r == Some("coupon not applicable to this plan")
  {
    if !c.isActive then Some("coupon is inactive")
    else if c.expiryDate.Some? && c.expiryDate.value < now then Some("coupon established")
    else if c.maxUses > 0 && c.usedCount >= c.maxUses then Some("coupon usage limit reached")
    else if |c.applicablePlanIds| > 0 && planId !in c.applicablePlanIds then
      Some("coupon not applicable to this plan")
    else None
  }

  /** The price a coupon is measured against: tiered and donation plans have none. */
  function BasePrice(p: PricingPlan): (b: real)
    requires HasTypeConfig(p)
    ensures Pricing.TypeConfigValid(p) ==> b >= 0.0
    ensures p.planType == TieredType || p.planType == DonationType ==> b == 0.0
    ensures p.planType == SplitType ==> b == p.splitConfig.value.totalAmount
    ensures p.planType == OneTimeType ==> b == p.oneTimeConfig.value.price
    ensures p.planType == SubscriptionType ==> b == p.subscriptionConfig.value.price
    ensures p.planType == BundleType ==> b == p.bundleConfig.value.price
  {
    if p.planType == OneTimeType then p.oneTimeConfig.value.price
    else if p.planType == SubscriptionType then p.subscriptionConfig.value.price
    else if p.planType == BundleType then p.bundleConfig.value.price
    else if p.planType == SplitType then p.splitConfig.value.totalAmount
    else 0.0
  }

  /** A fixed coupon takes its amount, any other type that percentage of the base; never more than the base. */
  function Discount(c: Coupon, base: real): (d: real)
    ensures d <= base
    ensures d == base || d == (if c.discountType == FixedDiscount then c.discountAmount else base * c.discountAmount / 100.0)
  {
    var raw := if c.discountType == FixedDiscount then c.discountAmount else base * c.discountAmount / 100.0;
    if raw > base then base else raw
  }

  /** For a well-formed coupon and a non-negative base the discount lies between 0 and the base. */
  lemma DiscountBounds(c: Coupon, base: real)
    requires WellFormed(c) && base >= 0.0
    ensures 0.0 <= Discount(c, base) <= base
    ensures c.discountType == PercentDiscount ==> Discount(c, base) == base * c.discountAmount / 100.0
    ensures c.discountType == FixedDiscount ==>
      Discount(c, base) == (if c.discountAmount <= base then c.discountAmount else base)
  {
    assert base * c.discountAmount >= 0.0;
    if c.discountType == PercentDiscount {
      var slack := 100.0 - c.discountAmount;
      assert base * slack >= 0.0;
      assert base * 100.0 == base * c.discountAmount + base * slack;
    }
  }

  /** ValidateCoupon as a decision: the coupon and its discount, or the first error in the service's order. */
  function Verdict(coupons: seq<Coupon>, plans: seq<PricingPlan>, code: string, planId: string, now: int)
    : (r: Result<(Coupon, real)>)
    requires forall i :: 0 <= i < |plans| ==> HasTypeConfig(plans[i])
    ensures r.Ok? <==>
      && CouponIndex(coupons, code).Some?
      && Usable(coupons[CouponIndex(coupons, code).value], planId, now)
      && Pricing.FindPlan(plans, planId).Ok?
    ensures r.Ok? ==>
      && r.value.0 == coupons[CouponIndex(coupons, code).value]
      && r.value.0.code == code
      && r.value.1 == Discount(r.value.0, BasePrice(Pricing.FindPlan(plans, planId).value))
    ensures CouponIndex(coupons, code).None? ==> r == Err("coupon not found")
    ensures CouponIndex(coupons, code).Some? && Rejection(coupons[CouponIndex(coupons, code).value], planId, now).Some? ==>
      r == Err(Rejection(coupons[CouponIndex(coupons, code).value], planId, now).value)
    ensures (CouponIndex(coupons, code).Some? && Rejection(coupons[CouponIndex(coupons, code).value], planId, now).None?
             && Pricing.FindPlan(plans, planId).Err?) ==> r == Err("plan not found")
  {
    match CouponIndex(coupons, code)
    case None => Err("coupon not found")
    case Some(k) =>
      match Rejection(coupons[k], planId, now)
      case Some(e) => Err(e)
      case None =>
        match Pricing.FindPlan(plans, planId)
        case Err(_) => Err("plan not found")
        case Ok(p) => Ok((coupons[k], Discount(coupons[k], BasePrice(p))))
  }

  /**
   * A coupon accepted on a stored plan never takes off more than the plan's base price nor less
   * than nothing, and when it has a use limit it has at least one use left.
   */
  lemma AcceptedCouponBounds(coupons: seq<Coupon>, plans: seq<PricingPlan>, code: string, planId: string, now: int)
    requires forall i :: 0 <= i < |plans| ==> HasTypeConfig(plans[i]) && Pricing.TypeConfigValid(plans[i])
    requires forall i :: 0 <= i < |coupons| ==> WellFormed(coupons[i])
    requires Verdict(coupons, plans, code, planId, now).Ok?
    ensures var (c, d) := Verdict(coupons, plans, code, planId, now).value;
      && 0.0 <= d <= BasePrice(Pricing.FindPlan(plans, planId).value)
      && (c.maxUses > 0 ==> c.usedCount + 1 <= c.maxUses)
      && (c.expiryDate.Some? ==> now <= c.expiryDate.value)
  {
    var (c, d) := Verdict(coupons, plans, code, planId, now).value;
    var p := Pricing.FindPlan(plans, planId).value;
    var k :| 0 <= k < |plans| && plans[k] == p;
    DiscountBounds(c, BasePrice(p));
  }

  // ---------------------------------------------------------------------------------------------
  // Usage counting

  /** One more recorded use; nothing else about the coupon changes. */
  function Bumped(c: Coupon): (r: Coupon)
    ensures r.usedCount == c.usedCount + 1
    ensures r.(usedCount := c.usedCount) == c
  {
    c.(usedCount := c.usedCount + 1)
  }

  /** The store after one use of `code`: the matching coupon gains a use, every other coupon is untouched. */
  function Used(coupons: seq<Coupon>, code: string): (r: seq<Coupon>)
    ensures |r| == |coupons|
    ensures forall i :: 0 <= i < |r| && CouponIndex(coupons, code) != Some(i) ==> r[i] == coupons[i]
    ensures CouponIndex(coupons, code).Some? ==>
      r[CouponIndex(coupons, code).value].usedCount == coupons[CouponIndex(coupons, code).value].usedCount + 1
  {
    match CouponIndex(coupons, code)
    case None => coupons
    case Some(k) => coupons[k := Bumped(coupons[k])]
  }

  /** Linear scan with early exit over a coupon's plan list, as the service does it. */
  method IsApplicable(ids: seq<string>, planId: string) returns (found: bool)
    ensures found <==> planId in ids
  {
    found := false;
    var i := 0;
    while i < |ids|
      invariant 0 <= i <= |ids|
      invariant found <==> planId in ids[..i]
    {
      if ids[i] == planId {
        found := true;
        i := i + 1;
        break;
      }
      i := i + 1;
    }
    assert found || ids[..i] == ids;
  }

  // ---------------------------------------------------------------------------------------------
  // The service and its coupon store

  class CouponService {
    var coupons: seq<Coupon>
    const pricing: Pricing.PricingService

    /** Store invariant: store-issued ids, well-formed coupons, unique codes, non-negative use counts. */
    ghost predicate Valid()
      reads this
    {
      && (forall i :: 0 <= i < |coupons| ==>
            coupons[i].id == MintedId(i) && WellFormed(coupons[i]) && coupons[i].usedCount >= 0)
      && (forall i, j :: 0 <= i < j < |coupons| ==> coupons[i].code != coupons[j].code)
    }

    constructor (pricing: Pricing.PricingService)
      ensures Valid() && coupons == [] && this.pricing == pricing
    {
      this.pricing := pricing;
      coupons := [];
    }

    /** Checks the fields, refuses a code already in use, and stores the coupon. */
    method CreateCoupon(c: Coupon, now: int) returns (r: Result<Coupon>)
      requires Valid()
      modifies this
      ensures Valid()
      ensures CheckNewCoupon(c).Fail? ==> r == Err(CheckNewCoupon(c).msg) && coupons == old(coupons)
      ensures CheckNewCoupon(c).Pass? && CouponIndex(old(coupons), c.code).Some? ==>
        r == Err("coupon code already exists") && coupons == old(coupons)
      ensures CheckNewCoupon(c).Pass? && CouponIndex(old(coupons), c.code).None? ==>
        r == Ok(Issued(c, now, |old(coupons)|)) && coupons == old(coupons) + [r.value]
    {
      var check := CheckNewCoupon(c);
      if check.Fail? {
        return Err(check.msg);
      }
      if CouponIndex(coupons, c.code).Some? {
        return Err("coupon code already exists");
      }
      var stored := c.(createdAt := now, isActive := true, usedCount := 0);
      stored := stored.(id := MintedId(|coupons|));
      coupons := coupons + [stored];
      r := Ok(stored);
    }

    /** ValidateCoupon: the coupon with that code and the discount it gives on the plan. */
    method ValidateCoupon(code: string, planId: string, now: int) returns (r: Result<(Coupon, real)>)
      requires Valid() && pricing.Valid()
      ensures r == Verdict(coupons, pricing.plans, code, planId, now)
    {
      var k := CouponIndex(coupons, code);
      if k.None? {
        return Err("coupon not found");
      }
      var c := coupons[k.value];
      if !c.isActive {
        return Err("coupon is inactive");
      }
      if c.expiryDate.Some? && c.expiryDate.value < now {
        return Err("coupon established");
      }
      if c.maxUses > 0 && c.usedCount >= c.maxUses {
        return Err("coupon usage limit reached");
      }
      if |c.applicablePlanIds| > 0 {
        var applicable := IsApplicable(c.applicablePlanIds, planId);
        if !applicable {
          return Err("coupon not applicable to this plan");
        }
      }
      var plan := pricing.GetPlan(planId);
      if plan.Err? {
        return Err("plan not found");
      }
      var discount := Discount(c, BasePrice(plan.value));
      r := Ok((c, discount));
    }

    /** ApplyCoupon: one more use on the coupon with that code; an unknown code changes nothing and is not an error. */
    method ApplyCoupon(code: string) returns (o: Outcome)
      requires Valid()
      modifies this
      ensures Valid()
      ensures o == Pass
      ensures coupons == Used(old(coupons), code)
    {
      var k := CouponIndex(coupons, code);
      if k.Some? {
        coupons := coupons[k.value := Bumped(coupons[k.value])];
      }
      o := Pass;
    }
  }
}

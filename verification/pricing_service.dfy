/**
 * The pricing service: the validation a plan must pass before it is stored, its finalisation and
 * optional sync with the payment processor, renaming a stored plan, and the base-price lookup.
 */
module Pricing {
  import opened Wrappers
  import opened Domain
  import opened Seqs
  import opened PaymentGateway

  // ---------------------------------------------------------------------------------------------
  // Validation

  /** The type-specific rules a plan must meet, stated rule by rule. */
  predicate TypeConfigValid(p: PricingPlan)
  {
    && KnownType(p.planType)
    && HasTypeConfig(p)
    && (p.planType == OneTimeType ==> p.oneTimeConfig.value.price >= 0.0)
    && (p.planType == SubscriptionType ==> p.subscriptionConfig.value.price >= 0.0)
    && (p.planType == SplitType ==> p.splitConfig.value.totalAmount > 0.0)
    && (p.planType == TieredType ==> |p.tieredConfig.value.tiers| > 0)
    && (p.planType == DonationType ==> p.donationConfig.value.minAmount >= 0.0)
    && (p.planType == BundleType ==>
          p.bundleConfig.value.price >= 0.0 && |p.bundleConfig.value.includedProductIds| > 0)
  }

  /** The rules on the optional constraint overlays; an absent overlay imposes nothing. */
  predicate ConstraintsValid(p: PricingPlan, now: int)
  {
    && (p.limitedSell.Some? ==> p.limitedSell.value.maxQuantity > 0)
    && (p.earlyBird.Some? ==> p.earlyBird.value.discountAmount > 0.0 && p.earlyBird.value.deadline >= now)
    && (p.accessDuration.Some? ==> p.accessDuration.value.durationDays > 0)
  }

  /** Everything a plan must satisfy at time `now` to be stored. */
  predicate Admissible(p: PricingPlan, now: int)
  {
    p.name != "" && TypeConfigValid(p) && ConstraintsValid(p, now)
  }

  /** The per-type switch of CreatePlan: the first failing rule gives the error. */
  function CheckTypeConfig(p: PricingPlan): (o: Outcome)
    requires p.planType != ""
    ensures o.Pass? <==> TypeConfigValid(p)
    ensures !KnownType(p.planType) ==> o == Fail("unknown pricing type")
  {
    if p.planType == OneTimeType then
      if p.oneTimeConfig.None? || p.oneTimeConfig.value.price < 0.0
      then Fail("invalid one-time config") else Pass
    else if p.planType == SubscriptionType then
      if p.subscriptionConfig.None? || p.subscriptionConfig.value.price < 0.0
      then Fail("invalid subscription config") else Pass
    else if p.planType == SplitType then
      if p.splitConfig.None? || p.splitConfig.value.totalAmount <= 0.0
      then Fail("invalid split payment config") else Pass
    else if p.planType == TieredType then
      if p.tieredConfig.None? || |p.tieredConfig.value.tiers| == 0
      then Fail("invalid tiered config") else Pass
    else if p.planType == DonationType then
      if p.donationConfig.None? || p.donationConfig.value.minAmount < 0.0
      then Fail("invalid donation config") else Pass
    else if p.planType == BundleType then
      if p.bundleConfig.None? || p.bundleConfig.value.price < 0.0
         || |p.bundleConfig.value.includedProductIds| == 0
      then Fail("invalid bundle config (must have price and included products)") else Pass
    else
      Fail("unknown pricing type")
  }

  /** The constraint-overlay checks of CreatePlan, in the order the service makes them. */
  function CheckConstraints(p: PricingPlan, now: int): (o: Outcome)
    ensures o.Pass? <==> ConstraintsValid(p, now)
  {
    if p.limitedSell.Some? && p.limitedSell.value.maxQuantity <= 0 then
      Fail("max quantity for limited sell must be greater than 0")
    else if p.earlyBird.Some? && p.earlyBird.value.discountAmount <= 0.0 then
      Fail("early bird discount amount must be greater than 0")
    else if p.earlyBird.Some? && p.earlyBird.value.deadline < now then
      Fail("early bird deadline must be in the future")
    else if p.accessDuration.Some? && p.accessDuration.value.durationDays <= 0 then
      Fail("access duration days must be greater than 0")
    else
      Pass
  }

  /** CreatePlan's whole decision chain: name, type, type configuration, then overlays. */
  function CheckPlan(p: PricingPlan, now: int): (o: Outcome)
    ensures o.Pass? <==> Admissible(p, now)
    ensures o.Pass? ==> HasTypeConfig(p) && KnownType(p.planType)
    ensures p.name == "" ==> o == Fail("plan name is required")
    ensures p.name != "" && p.planType == "" ==> o == Fail("pricing type is required")
    ensures p.name != "" && p.planType != "" && !KnownType(p.planType) ==> o == Fail("unknown pricing type")
  {
    if p.name == "" then Fail("plan name is required")
    else if p.planType == "" then Fail("pricing type is required")
    else if CheckTypeConfig(p).Fail? then CheckTypeConfig(p)
    else CheckConstraints(p, now)
  }

  /** An early-bird deadline equal to `now` is accepted; only a deadline strictly before it is refused. */
  lemma EarlyBirdDeadlineBoundary(p: PricingPlan, now: int)
    requires p.name != "" && TypeConfigValid(p)
    requires p.limitedSell.None? && p.accessDuration.None?
    requires p.earlyBird.Some? && p.earlyBird.value.discountAmount > 0.0
    ensures CheckPlan(p, now).Pass? <==> p.earlyBird.value.deadline >= now
    ensures p.earlyBird.value.deadline < now ==>
      CheckPlan(p, now) == Fail("early bird deadline must be in the future")
  {
  }

  // ---------------------------------------------------------------------------------------------
  // Processor sync

  /** What CreatePlan would register with the processor: amount, currency and billing interval. */
  datatype SyncTarget = SyncTarget(amount: real, currency: string, interval: string)

  function SyncTargetOf(p: PricingPlan): (t: SyncTarget)
    requires HasTypeConfig(p)
    ensures p.planType == OneTimeType ==>
      t.amount == p.oneTimeConfig.value.price && t.currency == p.oneTimeConfig.value.currency
    ensures p.planType == SubscriptionType ==>
      t.amount == p.subscriptionConfig.value.price && t.currency == p.subscriptionConfig.value.currency && t.interval == Month
    ensures p.planType == BundleType ==> t.amount == p.bundleConfig.value.price && t.currency == Usd
    ensures p.planType != SubscriptionType ==> t.interval == ""
    ensures p.planType != OneTimeType && p.planType != SubscriptionType && p.planType != BundleType ==>
      t.amount == 0.0 && t.currency == ""
  {
    if p.planType == OneTimeType then
      SyncTarget(p.oneTimeConfig.value.price, p.oneTimeConfig.value.currency, "")
    else if p.planType == SubscriptionType then
      SyncTarget(p.subscriptionConfig.value.price, p.subscriptionConfig.value.currency, Month)
    else if p.planType == BundleType then
      SyncTarget(p.bundleConfig.value.price, Usd, "")
    else
      SyncTarget(0.0, "", "")
  }

  /** Whether CreatePlan contacts the processor at all. */
  predicate WillSync(p: PricingPlan)
    requires HasTypeConfig(p)
  {
    SyncTargetOf(p).amount > 0.0 && SyncTargetOf(p).currency != ""
  }

  /**
   * Only one-time, subscription and bundle plans with a positive price (and, for the first two, a
   * currency) are synced; a subscription is always registered as monthly, whatever its interval.
   */
  lemma WillSyncExactly(p: PricingPlan)
    requires HasTypeConfig(p)
    ensures WillSync(p) <==>
      || (p.planType == OneTimeType && p.oneTimeConfig.value.price > 0.0 && p.oneTimeConfig.value.currency != "")
      || (p.planType == SubscriptionType && p.subscriptionConfig.value.price > 0.0
          && p.subscriptionConfig.value.currency != "")
      || (p.planType == BundleType && p.bundleConfig.value.price > 0.0)
    ensures WillSync(p) && p.planType == SubscriptionType ==> SyncTargetOf(p).interval == Month
  {
  }

  /** The processor requests CreatePlan issues when the log it starts from has length `n`. */
  function SyncRequests(p: PricingPlan, n: nat, respond: (nat, GatewayRequest) -> Result<string>): seq<GatewayRequest>
    requires HasTypeConfig(p)
  {
    if !WillSync(p) then []
    else
      var t := SyncTargetOf(p);
      var product := CreateProduct(p.name, p.description);
      match respond(n, product)
      case Err(_) => [product]
      case Ok(productId) => [product, CreatePrice(productId, t.amount, t.currency, t.interval)]
  }

  /** The plan with the processor ids it receives; a failed call leaves the corresponding id as it was. */
  function Synced(p: PricingPlan, n: nat, respond: (nat, GatewayRequest) -> Result<string>): (r: PricingPlan)
    requires HasTypeConfig(p)
    ensures r.(stripeProductId := p.stripeProductId, stripePriceId := p.stripePriceId) == p
    ensures !WillSync(p) ==> r == p
  {
    if !WillSync(p) then p
    else
      var t := SyncTargetOf(p);
      match respond(n, CreateProduct(p.name, p.description))
      case Err(_) => p
      case Ok(productId) =>
        match respond(n + 1, CreatePrice(productId, t.amount, t.currency, t.interval))
        case Err(_) => p.(stripeProductId := productId)
        case Ok(priceId) => p.(stripeProductId := productId, stripePriceId := priceId)
  }

  /** The stored form of an accepted plan: active, stamped with `now`, with the store's id. */
  function Finalised(p: PricingPlan, now: int, n: nat): (r: PricingPlan)
    ensures r.isActive && r.createdAt == now && r.updatedAt == now && r.id == MintedId(n)
    ensures r.(id := p.id, isActive := p.isActive, createdAt := p.createdAt, updatedAt := p.updatedAt) == p
  {
    p.(id := MintedId(n), isActive := true, createdAt := now, updatedAt := now)
  }

  // ---------------------------------------------------------------------------------------------
  // Lookups and renaming

  /** Position of the plan with id `id` in the store, as `FindOne` by id picks it. */
  function PlanIndex(plans: seq<PricingPlan>, id: string): Option<nat>
  {
    FirstWhere(plans, (p: PricingPlan) => p.id == id)
  }

  /** GetPlan: the stored plan with that id, or the store's "no documents" error. */
  function FindPlan(plans: seq<PricingPlan>, id: string): (r: Result<PricingPlan>)
    ensures r.Ok? ==> r.value in plans && r.value.id == id
    ensures r.Err? <==> forall i :: 0 <= i < |plans| ==> plans[i].id != id
    ensures r.Err? ==> r.msg == NoDocuments
  {
    match PlanIndex(plans, id)
    case None => Err(NoDocuments)
    case Some(k) => Ok(plans[k])
  }

  /** UpdatePlan's edit: new name and description, `updatedAt` moved to `now`, nothing else touched. */
  function Renamed(p: PricingPlan, name: string, description: string, now: int): (r: PricingPlan)
    ensures r.name == name && r.description == description && r.updatedAt == now
    ensures r.(name := p.name, description := p.description, updatedAt := p.updatedAt) == p
  {
    p.(name := name, description := description, updatedAt := now)
  }

  // ---------------------------------------------------------------------------------------------
  // Final price

  /** CalculateFinalPrice once the plan is found: only one-time and subscription plans are priced. */
  function FinalPrice(p: PricingPlan): (r: Result<real>)
    requires HasTypeConfig(p)
    ensures r.Ok? <==> p.planType == OneTimeType || p.planType == SubscriptionType
    ensures p.planType == OneTimeType ==> r == Ok(p.oneTimeConfig.value.price)
    ensures p.planType == SubscriptionType ==> r == Ok(p.subscriptionConfig.value.price)
    ensures r.Err? ==> r.msg == "unsupported price calculation type"
  {
    if p.planType == OneTimeType then Ok(p.oneTimeConfig.value.price)
    else if p.planType == SubscriptionType then Ok(p.subscriptionConfig.value.price)
    else Err("unsupported price calculation type")
  }

  // ---------------------------------------------------------------------------------------------
  // The service and its plan store

  class PricingService {
    var plans: seq<PricingPlan>
    const gateway: Gateway

    /** Store invariant: ids are the store's own and every plan passed the type-specific rules. */
    ghost predicate Valid()
      reads this
    {
      forall i :: 0 <= i < |plans| ==> plans[i].id == MintedId(i) && TypeConfigValid(plans[i])
    }

    constructor (gateway: Gateway)
      ensures Valid() && plans == [] && this.gateway == gateway
    {
      this.gateway := gateway;
      plans := [];
    }

    /**
     * Validates the plan, syncs it with the processor when it has a price and a currency (a
     * processor failure never fails creation), finalises it and stores it.
     */
    method CreatePlan(plan: PricingPlan, now: int) returns (r: Result<PricingPlan>)
      requires Valid()
      modifies this, gateway
      ensures Valid()
      ensures CheckPlan(plan, now).Fail? ==>
        r == Err(CheckPlan(plan, now).msg) && plans == old(plans) && gateway.log == old(gateway.log)
      ensures CheckPlan(plan, now).Pass? ==>
        && r == Ok(Finalised(Synced(plan, |old(gateway.log)|, gateway.respond), now, |old(plans)|))
        && plans == old(plans) + [r.value]
        && gateway.log == old(gateway.log) + SyncRequests(plan, |old(gateway.log)|, gateway.respond)
    {
      var check := CheckPlan(plan, now);
      if check.Fail? {
        return Err(check.msg);
      }
      var p := SyncWithProcessor(plan);
      p := p.(createdAt := now, updatedAt := now, isActive := true);
      p := p.(id := MintedId(|plans|));
      plans := plans + [p];
      r := Ok(p);
    }

    /** The processor half of CreatePlan: product first, then its price; failures are swallowed. */
    method SyncWithProcessor(plan: PricingPlan) returns (p: PricingPlan)
      requires HasTypeConfig(plan)
      modifies gateway
      ensures p == Synced(plan, |old(gateway.log)|, gateway.respond)
      ensures gateway.log == old(gateway.log) + SyncRequests(plan, |old(gateway.log)|, gateway.respond)
    {
      var target := SyncTargetOf(plan);
      p := plan;
      if target.amount > 0.0 && target.currency != "" {
        var product := gateway.Call(CreateProduct(plan.name, plan.description));
        if product.Ok? {
          p := p.(stripeProductId := product.value);
          var price := gateway.Call(CreatePrice(product.value, target.amount, target.currency, target.interval));
          if price.Ok? {
            p := p.(stripePriceId := price.value);
          }
        }
      }
    }

    /** GetPlan against this store. */
    function GetPlan(id: string): Result<PricingPlan>
      reads this
    {
      FindPlan(plans, id)
    }

    /** CalculateFinalPrice: the coupon code is accepted but not used. */
    function CalculateFinalPrice(planId: string, couponCode: string): (r: Result<real>)
      reads this
      requires Valid()
      ensures FindPlan(plans, planId).Err? ==> r == Err(NoDocuments)
      ensures FindPlan(plans, planId).Ok? ==>
        var p := FindPlan(plans, planId).value;
        && (r.Ok? <==> p.planType == OneTimeType || p.planType == SubscriptionType)
        && (r.Err? ==> r.msg == "unsupported price calculation type")
        && (p.planType == OneTimeType ==> r == Ok(p.oneTimeConfig.value.price))
        && (p.planType == SubscriptionType ==> r == Ok(p.subscriptionConfig.value.price))
    {
      match GetPlan(planId)
      case Err(e) => Err(e)
      case Ok(p) => FinalPrice(p)
    }

    /**
     * Renames a stored plan: the processor product (if any) is told first, and its failure is
     * ignored; then only name, description and `updatedAt` of that plan change.
     */
    method UpdatePlan(id: string, name: string, description: string, now: int) returns (o: Outcome)
      requires Valid()
      modifies this, gateway
      ensures Valid()
      ensures PlanIndex(old(plans), id).None? ==>
        o == Fail(NoDocuments) && plans == old(plans) && gateway.log == old(gateway.log)
      ensures PlanIndex(old(plans), id).Some? ==>
        var k := PlanIndex(old(plans), id).value;
        && o == Pass
        && plans == old(plans)[k := Renamed(old(plans)[k], name, description, now)]
        && gateway.log == old(gateway.log) +
             (if old(plans)[k].stripeProductId != ""
              then [UpdateProduct(old(plans)[k].stripeProductId, name, description)] else [])
    {
      var found := PlanIndex(plans, id);
      if found.None? {
        return Fail(NoDocuments);
      }
      var k := found.value;
      var plan := plans[k];
      if plan.stripeProductId != "" {
        var _ := gateway.Call(UpdateProduct(plan.stripeProductId, name, description));
      }
      plan := plan.(name := name, description := description, updatedAt := now);
      plans := plans[k := plan];
      o := Pass;
    }
  }
}

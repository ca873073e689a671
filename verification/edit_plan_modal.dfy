/**
 * The plan-editing dialog: its state is seeded from the plan being edited, and on submit it
 * sends the name and description, plus the price for priced types and the interval for
 * subscriptions, to the plan-update endpoint.
 */
module EditPlanModal {
  import opened Wrappers
  import opened Domain
  import Pricing
  import Coupons

  /** The JSON body of an update request; a field the dialog does not send is `None`. */
  datatype UpdatePayload = UpdatePayload(name: string, description: string, price: Option<real>, interval: Option<string>)

  /** The types whose price the dialog lets the user edit. */
  predicate PricedType(t: string)
  {
    t == OneTimeType || t == SubscriptionType || t == BundleType
  }

  /** The price the dialog starts from: that of the first configuration present, one-time first. */
  function InitialPrice(p: PricingPlan, current: real): real
  {
    if p.oneTimeConfig.Some? then p.oneTimeConfig.value.price
    else if p.subscriptionConfig.Some? then p.subscriptionConfig.value.price
    else if p.bundleConfig.Some? then p.bundleConfig.value.price
    else current
  }

  /** The interval is only taken over when the subscription configuration is the one that supplies the price. */
  function InitialInterval(p: PricingPlan, current: string): string
  {
    if p.oneTimeConfig.None? && p.subscriptionConfig.Some? then p.subscriptionConfig.value.interval else current
  }

  /** A plan that carries, among the editable prices, only the configuration of its own type. */
  predicate OwnConfigOnly(p: PricingPlan)
  {
    && (p.planType != OneTimeType ==> p.oneTimeConfig.None?)
    && (p.planType != SubscriptionType ==> p.subscriptionConfig.None?)
  }

  /**
   * For such a plan of a priced type the dialog starts from the plan's own price (the one
   * checkout and coupons charge) and, for a subscription, from its own interval.
   */
  lemma InitialValuesAreStored(p: PricingPlan, price: real, interval: string)
    requires HasTypeConfig(p) && PricedType(p.planType) && OwnConfigOnly(p)
    ensures InitialPrice(p, price) == Coupons.BasePrice(p)
    ensures p.planType == SubscriptionType ==> InitialInterval(p, interval) == p.subscriptionConfig.value.interval
    ensures p.planType != SubscriptionType ==> InitialInterval(p, interval) == interval
  {
  }

  /** A plan of a stray type whose one-time configuration is present starts from the one-time price. */
  lemma OneTimeConfigTakesPrecedence(p: PricingPlan, price: real)
    requires p.oneTimeConfig.Some?
    ensures InitialPrice(p, price) == p.oneTimeConfig.value.price
  {
  }

  /** handleSubmit's payload for the plan being edited, if any. */
  function BuildUpdatePayload(plan: Option<PricingPlan>, name: string, description: string, price: real, interval: string)
    : (u: UpdatePayload)
    ensures u.name == name && u.description == description
    ensures u.price.Some? <==> plan.Some? && PricedType(plan.value.planType)
    ensures u.price.Some? ==> u.price.value == price
    ensures u.interval.Some? <==> plan.Some? && plan.value.planType == SubscriptionType
    ensures u.interval.Some? ==> u.interval.value == interval
  {
    var t := if plan.Some? then plan.value.planType else "";
    UpdatePayload(name, description,
                  if PricedType(t) then Some(price) else None,
                  if t == SubscriptionType then Some(interval) else None)
  }

  /** The request the mutation sends: none when there is no plan or the plan has an empty id. */
  function UpdateRequest(plan: Option<PricingPlan>, u: UpdatePayload): (r: Option<(string, UpdatePayload)>)
    ensures r.None? <==> plan.None? || plan.value.id == ""
    ensures r.Some? ==> r.value.0 == plan.value.id && r.value.1 == u
  {
    if plan.None? || plan.value.id == "" then None else Some((plan.value.id, u))
  }

  class EditPlanModal {
    var name: string
    var description: string
    var price: real
    var interval: string

    constructor ()
      ensures name == "" && description == "" && price == 0.0 && interval == Month
    {
      name, description, price, interval := "", "", 0.0, Month;
    }

    /** The effect run when the dialog opens on a plan; without a plan nothing changes. */
    method Init(plan: Option<PricingPlan>)
      modifies this
      ensures plan.None? ==>
        name == old(name) && description == old(description) && price == old(price) && interval == old(interval)
      ensures plan.Some? ==>
        && name == plan.value.name && description == plan.value.description
        && price == InitialPrice(plan.value, old(price))
        && interval == InitialInterval(plan.value, old(interval))
    {
      if plan.Some? {
        var p := plan.value;
        name := p.name;
        description := p.description;
        if p.oneTimeConfig.Some? {
          price := p.oneTimeConfig.value.price;
        } else if p.subscriptionConfig.Some? {
          price := p.subscriptionConfig.value.price;
          interval := p.subscriptionConfig.value.interval;
        } else if p.bundleConfig.Some? {
          price := p.bundleConfig.value.price;
        }
      }
    }

    method SetName(v: string)
      modifies this
      ensures name == v && description == old(description) && price == old(price) && interval == old(interval)
    {
      name := v;
    }

    method SetDescription(v: string)
      modifies this
      ensures description == v && name == old(name) && price == old(price) && interval == old(interval)
    {
      description := v;
    }

    method SetPrice(v: real)
      modifies this
      ensures price == v && name == old(name) && description == old(description) && interval == old(interval)
    {
      price := v;
    }

    method SetInterval(v: string)
      modifies this
      ensures interval == v && name == old(name) && description == old(description) && price == old(price)
    {
      interval := v;
    }

    /** What "Save Changes" sends for the plan being edited. */
    function Request(plan: Option<PricingPlan>): Option<(string, UpdatePayload)>
      reads this
    {
      UpdateRequest(plan, BuildUpdatePayload(plan, name, description, price, interval))
    }
  }

  /**
   * Opening the dialog on a stored plan and saving without edits: the plan update leaves the
   * plan as it was except for its update time, and the price and interval sent are the plan's own.
   */
  lemma UneditedSaveKeepsPlan(p: PricingPlan, price: real, interval: string, now: int)
    requires HasTypeConfig(p) && PricedType(p.planType) && OwnConfigOnly(p) && p.id != ""
    ensures var u := BuildUpdatePayload(Some(p), p.name, p.description, InitialPrice(p, price), InitialInterval(p, interval));
      && UpdateRequest(Some(p), u) == Some((p.id, u))
      && Pricing.Renamed(p, u.name, u.description, now) == p.(updatedAt := now)
      && u.price == Some(Coupons.BasePrice(p))
      && (p.planType == SubscriptionType ==> u.interval == Some(p.subscriptionConfig.value.interval))
  {
    InitialValuesAreStored(p, price, interval);
  }
}

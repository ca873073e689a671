/**
 * The plan-creation form: its state (selected type, name, description, price, interval), the
 * payload it submits, and the preview suffix. The form offers the one-time and the
 * subscription type.
 */
module PricingForm {
  import opened Wrappers
  import opened Domain
  import Pricing

  /** The product every plan created from this form is attached to. */
  const DummyProductId: string := "650000000000000000000001"

  const DefaultValues: seq<string> := ["Recurring revenue", "Upgrade paths"]

  datatype OneTimePayload = OneTimePayload(price: real, currency: string)

  datatype SubscriptionPayload = SubscriptionPayload(price: real, currency: string, interval: string)

  /** The JSON body of a create request; an absent configuration is `None`. */
  datatype CreatePayload = CreatePayload(
    name: string, description: string, planType: string, productId: string, values: seq<string>,
    oneTimeConfig: Option<OneTimePayload>, subscriptionConfig: Option<SubscriptionPayload>)

  /** handleSubmit's payload: the common fields, plus the configuration of the selected type only. */
  function BuildCreatePayload(selectedType: string, name: string, description: string, price: real, interval: string)
    : (p: CreatePayload)
    ensures p.name == name && p.description == description && p.planType == selectedType
    ensures p.productId == DummyProductId && p.values == DefaultValues
    ensures p.oneTimeConfig.Some? <==> selectedType == OneTimeType
    ensures p.subscriptionConfig.Some? <==> selectedType == SubscriptionType
    ensures p.oneTimeConfig.Some? ==> p.oneTimeConfig.value == OneTimePayload(price, Usd)
    ensures p.subscriptionConfig.Some? ==> p.subscriptionConfig.value == SubscriptionPayload(price, Usd, interval)
  {
    var p := CreatePayload(name, description, selectedType, DummyProductId, DefaultValues, None, None);
    if selectedType == OneTimeType then p.(oneTimeConfig := Some(OneTimePayload(price, Usd)))
    else if selectedType == SubscriptionType then p.(subscriptionConfig := Some(SubscriptionPayload(price, Usd, interval)))
    else p
  }

  /** The plan the pricing service receives for a payload: every field the payload lacks is zero or absent. */
  function Received(p: CreatePayload): (plan: PricingPlan)
    ensures plan.name == p.name && plan.planType == p.planType
    ensures plan.oneTimeConfig.Some? <==> p.oneTimeConfig.Some?
    ensures plan.subscriptionConfig.Some? <==> p.subscriptionConfig.Some?
    ensures plan.splitConfig.None? && plan.tieredConfig.None? && plan.donationConfig.None? && plan.bundleConfig.None?
    ensures plan.limitedSell.None? && plan.earlyBird.None? && plan.accessDuration.None?
  {
    PricingPlan(
      "", p.productId, "", p.name, p.description, p.planType, false, p.values, false, false, false, "", "",
      if p.oneTimeConfig.Some? then Some(OneTimeConfig(p.oneTimeConfig.value.price, 0.0, p.oneTimeConfig.value.currency))
      else None,
      if p.subscriptionConfig.Some? then
        Some(SubscriptionConfig(p.subscriptionConfig.value.price, 0.0, 0.0, p.subscriptionConfig.value.currency,
                                p.subscriptionConfig.value.interval, 0, false))
      else None,
      None, None, None, None, None, None, None, None, 0, 0)
  }

  /**
   * A plan submitted from this form is accepted by plan creation exactly when it has a name, the
   * selected type is one the form can configure, and the price is not negative; any other type
   * arrives without its configuration and is refused.
   */
  lemma SubmittedPlanAccepted(selectedType: string, name: string, description: string, price: real, interval: string,
                              now: int)
    ensures var plan := Received(BuildCreatePayload(selectedType, name, description, price, interval));
      Pricing.CheckPlan(plan, now).Pass? <==>
        name != "" && (selectedType == OneTimeType || selectedType == SubscriptionType) && price >= 0.0
  {
  }

  /** The line under the preview price. */
  function PreviewSuffix(selectedType: string, interval: string): (s: string)
    ensures selectedType == SubscriptionType ==> s == "/" + interval
    ensures selectedType != SubscriptionType ==> s == "Lifetime access"
  {
    if selectedType == SubscriptionType then "/" + interval else "Lifetime access"
  }

  class PricingForm {
    var selectedType: string
    var name: string
    var description: string
    var price: real
    var interval: string

    /** Only the two types the form offers can be selected. */
    ghost predicate Valid()
      reads this
    {
      selectedType == OneTimeType || selectedType == SubscriptionType
    }

    constructor ()
      ensures Valid()
      ensures selectedType == OneTimeType && name == "Premium Plan" && description == ""
      ensures price == 50.0 && interval == Month
    {
      selectedType, name, description, price, interval := OneTimeType, "Premium Plan", "", 50.0, Month;
    }

    /** The one-time card. */
    method ChooseOneTime()
      modifies this
      ensures Valid() && selectedType == OneTimeType
      ensures name == old(name) && description == old(description) && price == old(price) && interval == old(interval)
    {
      selectedType := OneTimeType;
    }

    /** The subscription card. */
    method ChooseSubscription()
      modifies this
      ensures Valid() && selectedType == SubscriptionType
      ensures name == old(name) && description == old(description) && price == old(price) && interval == old(interval)
    {
      selectedType := SubscriptionType;
    }

    method SetName(v: string)
      modifies this
      ensures name == v
      ensures selectedType == old(selectedType) && description == old(description) && price == old(price)
      ensures interval == old(interval)
    {
      name := v;
    }

    method SetDescription(v: string)
      modifies this
      ensures description == v
      ensures selectedType == old(selectedType) && name == old(name) && price == old(price) && interval == old(interval)
    {
      description := v;
    }

    method SetPrice(v: real)
      modifies this
      ensures price == v
      ensures selectedType == old(selectedType) && name == old(name) && description == old(description)
      ensures interval == old(interval)
    {
      price := v;
    }

    method SetInterval(v: string)
      modifies this
      ensures interval == v
      ensures selectedType == old(selectedType) && name == old(name) && description == old(description)
      ensures price == old(price)
    {
      interval := v;
    }

    /** What "Create Plan" sends. */
    function Payload(): CreatePayload
      reads this
    {
      BuildCreatePayload(selectedType, name, description, price, interval)
    }

    /** The form's submission always carries exactly one configuration, the selected type's. */
    lemma PayloadHasOneConfig()
      requires Valid()
      ensures Payload().oneTimeConfig.Some? != Payload().subscriptionConfig.Some?
      ensures Pricing.CheckPlan(Received(Payload()), 0).Pass? <==> name != "" && price >= 0.0
    {
      SubmittedPlanAccepted(selectedType, name, description, price, interval, 0);
    }
  }
}

/** The storefront's price label for a plan card. */
module PricingPage {
  import opened Wrappers
  import opened Domain

  /** A template-literal placeholder over an optional field: an absent value renders as "undefined". */
  function Placeholder<T>(x: Option<T>, show: T -> string): (s: string)
    ensures x.Some? ==> s == show(x.value)
    ensures x.None? ==> s == "undefined"
  {
    match x
    case None => "undefined"
    case Some(v) => show(v)
  }

  function Ident(s: string): string
  {
    s
  }

  /**
   * formatPrice: the one-time price in USD, the subscription price per interval, and a fixed text
   * for every other type. `show` is the number-to-text conversion of the runtime.
   */
  function FormatPrice(plan: PricingPlan, show: real -> string): (text: string)
    ensures plan.planType == OneTimeType && plan.oneTimeConfig.Some? ==>
      text == "$" + show(plan.oneTimeConfig.value.price) + " USD"
    ensures plan.planType == SubscriptionType && plan.subscriptionConfig.Some? ==>
      text == "$" + show(plan.subscriptionConfig.value.price) + " / " + plan.subscriptionConfig.value.interval
    ensures plan.planType == OneTimeType && plan.oneTimeConfig.None? ==> text == "$undefined USD"
    ensures plan.planType != OneTimeType && plan.planType != SubscriptionType ==> text == "Custom Pricing"
  {
    if plan.planType == OneTimeType then
      "$" + Placeholder(if plan.oneTimeConfig.Some? then Some(plan.oneTimeConfig.value.price) else None, show) + " USD"
    else if plan.planType == SubscriptionType then
      var c := plan.subscriptionConfig;
      "$" + Placeholder(if c.Some? then Some(c.value.price) else None, show)
      + " / " + Placeholder(if c.Some? then Some(c.value.interval) else None, Ident)
    else "Custom Pricing"
  }

  /** The label reads nothing but the type and the configuration of that type. */
  lemma FormatPriceReadsMatchingConfig(p: PricingPlan, q: PricingPlan, show: real -> string)
    requires p.planType == q.planType
    requires p.planType == OneTimeType ==> p.oneTimeConfig == q.oneTimeConfig
    requires p.planType == SubscriptionType ==> p.subscriptionConfig == q.subscriptionConfig
    ensures FormatPrice(p, show) == FormatPrice(q, show)
  {
  }
}

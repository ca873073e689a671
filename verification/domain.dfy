/**
 * The records the services read and write: pricing plans with their per-type configurations and
 * constraint overlays, coupons, wallets and their ledger, affiliate programs, links and commissions,
 * and users. Money is an exact `real`, timestamps are `int`, identifiers are opaque strings.
 */
module Domain {
  import opened Wrappers

  // Pricing types (the tag of a plan's configuration).
  const OneTimeType: string := "one_time"
  const SubscriptionType: string := "subscription"
  const SplitType: string := "split"
  const TieredType: string := "tiered"
  const DonationType: string := "donation"
  const BundleType: string := "bundle"

  const Usd: string := "USD"
  const Month: string := "month"

  /** The error a repository lookup reports when no document matches. */
  const NoDocuments: string := "mongo: no documents in result"

  datatype OneTimeConfig = OneTimeConfig(price: real, originalPrice: real, currency: string)

  datatype SubscriptionConfig = SubscriptionConfig(
    price: real, originalPrice: real, setupFee: real, currency: string,
    interval: string, trialDays: int, trialRequiresCard: bool)

  datatype SplitConfig = SplitConfig(
    totalAmount: real, originalPrice: real, currency: string,
    installmentCount: int, interval: string, upfrontPayment: real)

  /** One quantity range of a tiered plan; `maxQty == -1` stands for "no upper bound". */
  datatype TierItem = TierItem(name: string, minQty: int, maxQty: int, unitPrice: real)

  datatype TieredConfig = TieredConfig(tiers: seq<TierItem>)

  datatype DonationConfig = DonationConfig(minAmount: real, suggestedAmount: real, currency: string)

  datatype BundleConfig = BundleConfig(price: real, originalPrice: real, includedProductIds: seq<string>)

  datatype UpsellConfig = UpsellConfig(upsellProductIds: seq<string>)

  datatype LimitedSellConfig = LimitedSellConfig(maxQuantity: int, soldCount: int)

  datatype EarlyBirdConfig = EarlyBirdConfig(discountAmount: real, deadline: int)

  datatype AccessConfig = AccessConfig(durationDays: int)

  /**
   * A pricing plan. Each configuration is optional (a nil pointer in the store, an absent key in
   * the JSON the storefront receives); `planType` says which one is meant. An empty `id` is a plan
   * the store has not assigned an id to.
   */
  datatype PricingPlan = PricingPlan(
    id: string, productId: string, creatorId: string,
    name: string, description: string, planType: string,
    isActive: bool, values: seq<string>, allowCoupons: bool, isFree: bool, isPrivate: bool,
    stripeProductId: string, stripePriceId: string,
    oneTimeConfig: Option<OneTimeConfig>,
    subscriptionConfig: Option<SubscriptionConfig>,
    splitConfig: Option<SplitConfig>,
    tieredConfig: Option<TieredConfig>,
    donationConfig: Option<DonationConfig>,
    bundleConfig: Option<BundleConfig>,
    limitedSell: Option<LimitedSellConfig>,
    earlyBird: Option<EarlyBirdConfig>,
    accessDuration: Option<AccessConfig>,
    upsellConfig: Option<UpsellConfig>,
    createdAt: int, updatedAt: int)

  /** The six pricing types the services know. */
  predicate KnownType(t: string)
  {
    t == OneTimeType || t == SubscriptionType || t == SplitType
    || t == TieredType || t == DonationType || t == BundleType
  }

  /** The configuration that matches the plan's type is present (so reading it cannot fail). */
  predicate HasTypeConfig(p: PricingPlan)
  {
    && (p.planType == OneTimeType ==> p.oneTimeConfig.Some?)
    && (p.planType == SubscriptionType ==> p.subscriptionConfig.Some?)
    && (p.planType == SplitType ==> p.splitConfig.Some?)
    && (p.planType == TieredType ==> p.tieredConfig.Some?)
    && (p.planType == DonationType ==> p.donationConfig.Some?)
    && (p.planType == BundleType ==> p.bundleConfig.Some?)
  }

  datatype Coupon = Coupon(
    id: string, code: string, discountType: string, discountAmount: real,
    applicablePlanIds: seq<string>, maxUses: int, usedCount: int,
    expiryDate: Option<int>, isActive: bool, createdAt: int)

  datatype Wallet = Wallet(id: string, userId: string, balance: real, currency: string, updatedAt: int)

  /** One ledger entry; `amount` is positive for a credit and negative for a debit. */
  datatype WalletTransaction = WalletTransaction(
    id: string, walletId: string, amount: real, txType: string,
    referenceId: string, description: string, createdAt: int)

  datatype PayoutRequest = PayoutRequest(
    id: string, userId: string, amount: real, currency: string,
    status: string, payoutMethod: string, createdAt: int)

  datatype AffiliateProgram = AffiliateProgram(
    id: string, creatorId: string, productId: Option<string>,
    commissionRate: real, isActive: bool, createdAt: int)

  datatype AffiliateLink = AffiliateLink(
    id: string, userId: string, programId: string, code: string, url: string,
    clicks: int, conversions: int, createdAt: int)

  datatype Commission = Commission(
    id: string, affiliateId: string, linkId: string, orderId: string,
    totalAmount: real, earnedAmount: real, status: string, createdAt: int)

  datatype User = User(id: string, email: string, fullName: string, stripeCustomerId: string, updatedAt: int)

  /**
   * The identifier a store assigns to the record it inserts at position `n` of an append-only
   * collection. Only its distinctness matters to the services, so it is a tally whose length
   * encodes the position.
   */
  function MintedId(n: nat): (id: string)
    ensures IssuedAt(id, n)
  {
    seq(n + 1, _ => '#')
  }

  /** `id` is the identifier issued for position `n`. */
  predicate IssuedAt(id: string, n: nat)
  {
    |id| == n + 1
  }

  /** `id` was issued for one of the positions below `n`. */
  predicate IssuedBelow(id: string, n: nat)
  {
    1 <= |id| <= n
  }

  /** Distinct positions get distinct identifiers. */
  lemma MintedIdInjective(a: nat, b: nat)
    ensures MintedId(a) == MintedId(b) <==> a == b
  {
  }
}

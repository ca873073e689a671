# auth-payment pricing and payments core, in Dafny

This project models the payment and pricing core of the auth-payment system. It has two parts.

The Go back end covers:

- **pricing service:** plan validation, syncing plans to the payment processor, final price, renaming;
- **coupon service:** issuing, validating and counting use;
- **wallet service:** an append-only ledger with balances, credits, debits and payouts;
- **affiliate service:** programs, referral links, clicks and commissions;
- **payment service:** checkout, with the subscription path and the one-off payment intent, and the post-payment webhook step.

The React front end covers the helpers that build or show plans:

- the plan-creation form and the plan-editing dialog;
- the tiered, split-payment, bundle and upsell sub-forms;
- the price label of the public pricing page.

Modelling conventions:

- Money is `real`.
- The current time is an `int` parameter called `now`.
- Identifiers are strings. An id that the database generates is `Domain.MintedId(n)`, where `n` is the position in the collection that stores it. `Domain.MintedIdInjective` shows that two such ids are distinct.
- Each repository is a `seq` field of the service class that owns it. A lookup is the first element that matches, via `Seqs.FirstWhere`.
- The payment processor is the class `PaymentGateway.Gateway`:
  - it keeps the log of the requests sent to it;
  - its answers come from a fixed function of (request number, request);
  - every property about the processor holds for any such answer function.

Modules, one per source file:

| module | file | source |
|---|---|---|
| `Domain` | `domain.dfy` | the entities |
| `PaymentGateway` | `gateway.dfy` | the payment processor |
| `Pricing` | `pricing_service.dfy` | pricing service |
| `Coupons` | `coupon_service.dfy` | coupon service |
| `Wallets` | `wallet_service.dfy` | wallet service |
| `Affiliates` | `affiliate_service.dfy` | affiliate service |
| `Payments` | `payment_service.dfy` | payment service |
| `PricingForm` | `pricing_form.dfy` | `PricingForm.tsx` |
| `EditPlanModal` | `edit_plan_modal.dfy` | `EditPlanModal.tsx` |
| `TieredForm` | `tiered_form.dfy` | `TieredForm.tsx` |
| `SplitPaymentForm` | `split_payment_form.dfy` | `SplitPaymentForm.tsx` |
| `BundleForm` | `bundle_form.dfy` | `BundleForm.tsx` |
| `UpsellForm` | `upsell_form.dfy` | `UpsellForm.tsx` |
| `ProductToggle` | `product_toggle.dfy` | the toggle that the bundle and upsell forms share |
| `PricingPage` | `pricing_page.dfy` | `PricingPage.tsx` |

`Seqs` and `Wrappers` hold generic helpers.

Behaviour of the code worth knowing before reading the contracts:

- **Tier quantity.** A tier quantity of 0 or less is charged as 1 (`Payments.TieredQuantityDefault`). It is not refused.
- **Unbounded tier.** An unbounded tier (`max_qty == -1`) stops at 1000000000 (`Payments.UnboundedTierIsCapped`).
- **Split installments.** Plan creation does not check a split plan's installment count at all (see Findings).
- **Coupon codes.** Codes are matched exactly, without case normalisation.
- **Price label.** The pricing page shows "Custom Pricing" for split, tiered, donation and bundle plans. It does not show a "From"/"Min" headline.
- **Expired coupons.** An expired coupon is refused with the message "coupon established", which is the message the code gives.

## Model

| member | source | states |
|---|---|---|
| Domain.MintedIdInjective | backend/internal/adapters/repository/mongodb_pricing.go:25 | Ids generated for different positions are different, so every stored id is unique. |
| PaymentGateway.Gateway.Call | backend/internal/core/services/payment_service.go:204 | Each processor call is appended to the request log, and its answer is the processor's reply for that position. |
| Pricing.CheckTypeConfig | backend/internal/core/services/pricing_service.go:32-71 | Passes exactly when the selected type's configuration is present and within bounds. An unknown type fails with "unknown pricing type". |
| Pricing.CheckConstraints | backend/internal/core/services/pricing_service.go:73-93 | Passes exactly when the limited-sell, early-bird and access-duration overlays are valid at time `now`. |
| Pricing.CheckPlan | backend/internal/core/services/pricing_service.go:23-93 | Passes exactly when the plan is admissible; a passing plan has a known type and its configuration. It gives each first-failing check's message (name, type, unknown type). |
| Pricing.EarlyBirdDeadlineBoundary | backend/internal/core/services/pricing_service.go:80-87 | An otherwise valid early-bird plan is accepted iff its deadline is not before `now`. Otherwise it is refused with the deadline message. |
| Pricing.WillSyncExactly | backend/internal/core/services/pricing_service.go:33-50 | A plan is pushed to the processor iff it is a one-time or subscription plan with a positive price and a currency, or a bundle with a positive price. Subscriptions always sync monthly. |
| Pricing.Synced | backend/internal/core/services/pricing_service.go:95-112 | Syncing changes only the processor product and price ids, and changes nothing when the plan does not sync. |
| Pricing.Finalised | backend/internal/core/services/pricing_service.go:114-118 | A stored plan is active, stamped with `now`, given a fresh id, and otherwise unchanged. |
| Pricing.FindPlan | backend/internal/core/services/pricing_service.go:121-127 | Finds a stored plan with the requested id, or fails with "no documents" exactly when none has it. |
| Pricing.Renamed | backend/internal/core/services/pricing_service.go:180-183 | Renaming sets name, description and update time, and leaves every other field as it was. |
| Pricing.SyncTargetOf | backend/internal/core/services/pricing_service.go:33-70 | The amount and currency registered with the processor are the one-time or subscription price and currency, or the bundle price in USD. Subscriptions are registered monthly. Every other type registers nothing. |
| Pricing.FinalPrice | backend/internal/core/services/pricing_service.go:148-161 | Only one-time and subscription plans have a final price, which is their configured price. Other types fail with "unsupported price calculation type". |
| Pricing.PricingService.constructor | backend/internal/core/services/pricing_service.go:19-21 | The service starts with an empty plan store over the given processor. |
| Pricing.PricingService.CreatePlan | backend/internal/core/services/pricing_service.go:23-119 | A refused plan leaves store and processor untouched and returns the check's message. An accepted plan is synced, finalised and appended, and exactly its sync requests are sent. |
| Pricing.PricingService.SyncWithProcessor | backend/internal/core/services/pricing_service.go:95-112 | Sends the create-product and create-price requests the plan calls for. The new processor ids are kept only when those calls succeed. |
| Pricing.PricingService.CalculateFinalPrice | backend/internal/core/services/pricing_service.go:141-162 | An unknown plan gives "no documents". A stored one-time or subscription plan is priced at its configured price, and any other type gives "unsupported price calculation type". The coupon code is ignored. |
| Pricing.PricingService.UpdatePlan | backend/internal/core/services/pricing_service.go:164-186 | An unknown id fails and changes nothing. Otherwise only that plan is renamed, and the processor product is updated when the plan has one. |
| Coupons.CheckNewCoupon | backend/internal/core/services/coupon_service.go:26-35 | Passes iff the coupon has a code and a positive discount that is at most 100 when it is a percentage. It gives the source's message for each failing rule. |
| Coupons.Issued | backend/internal/core/services/coupon_service.go:37-39 | A new coupon is active, unused, stamped with `now`, given a fresh id and otherwise unchanged. |
| Coupons.Rejection | backend/internal/core/services/coupon_service.go:62-91 | A coupon is rejected iff it is not usable for the plan at `now`. It gives the service's first failing message: "coupon is inactive", "coupon established" (expired), "coupon usage limit reached", then "coupon not applicable to this plan". |
| Coupons.BasePrice | backend/internal/core/services/coupon_service.go:107-123 | The discount base is the configured price of a one-time, subscription or bundle plan, the split total, or 0 for tiered and donation plans. It is never negative for a valid plan. |
| Coupons.Discount | backend/internal/core/services/coupon_service.go:125-133 | The discount is the fixed amount or the percentage of the base, and never more than the base. |
| Coupons.DiscountBounds | backend/internal/core/services/coupon_service.go:125-133 | For a well-formed coupon and a non-negative base, the discount lies between 0 and the base. A percentage takes its share; a fixed discount is capped at the base. |
| Coupons.Verdict | backend/internal/core/services/coupon_service.go:56-136 | A coupon is accepted iff it exists, is usable and the plan exists. The accepted discount is that coupon's discount on the plan's base price. A missing code gives "coupon not found", a rejected coupon its rejection message, and a missing plan "plan not found". |
| Coupons.AcceptedCouponBounds | backend/internal/core/services/coupon_service.go:62-133 | An accepted coupon from a well-formed store has a discount within the base, has not reached its use limit, and has not expired. |
| Coupons.Bumped | backend/internal/adapters/repository/mongo_coupon_repository.go:78-81 | Counting a use adds one to the use count and changes nothing else. |
| Coupons.Used | backend/internal/adapters/repository/mongo_coupon_repository.go:78-81 | Only the first coupon with the code gains a use; every other coupon stays the same. |
| Coupons.IsApplicable | backend/internal/core/services/coupon_service.go:81-87 | The scan over the applicable plan ids finds the plan iff it is listed. |
| Coupons.CouponService.constructor | backend/internal/core/services/coupon_service.go:19-24 | The service starts with an empty coupon store. |
| Coupons.CouponService.CreateCoupon | backend/internal/core/services/coupon_service.go:26-42 | An invalid coupon or a taken code changes nothing and reports why. Otherwise the issued coupon is appended. |
| Coupons.CouponService.ValidateCoupon | backend/internal/core/services/coupon_service.go:56-136 | Returns exactly the verdict for the stored coupons and plans. |
| Coupons.CouponService.ApplyCoupon | backend/internal/core/services/coupon_service.go:138-140 | Always succeeds and counts one use of the code. |
| Wallets.LedgerSumAppend | backend/internal/core/services/wallet_service.go:82-97 | Appending a transaction changes a wallet's ledger sum by that transaction's amount when it is the wallet's, and by nothing otherwise. |
| Wallets.LedgerSumAbsent | backend/internal/core/services/wallet_service.go:27-37 | A wallet with no transactions has ledger sum 0, matching a new wallet's balance of 0. |
| Wallets.OpenWallet | backend/internal/core/services/wallet_service.go:27-33 | A new wallet belongs to the user, has balance 0, is in USD and has a fresh id. |
| Wallets.WithWallet | backend/internal/core/services/wallet_service.go:22-40 | Gets the user's wallet, appending a new one only when the user has none. |
| Wallets.SlotIsOwner | backend/internal/core/services/wallet_service.go:22-40 | After get-or-create, the user's wallet is found at the expected position. |
| Wallets.WithWalletKeepsBalances | backend/internal/core/services/wallet_service.go:22-40 | Creating a wallet changes no user's balance. |
| Wallets.BookedBalances | backend/internal/core/services/wallet_service.go:95-97 | Booking an amount changes that user's balance by it and leaves every other user's balance unchanged. |
| Wallets.WithWalletConsistent | backend/internal/core/services/wallet_service.go:22-40 | Get-or-create keeps every balance equal to its ledger sum. |
| Wallets.BookedConsistent | backend/internal/core/services/wallet_service.go:82-97 | Booking an amount together with its ledger entry keeps balances equal to ledger sums and never negative. |
| Wallets.WalletService.constructor | backend/internal/core/services/wallet_service.go:18-20 | The service starts with no wallets, transactions or payouts. |
| Wallets.WalletService.GetOrCreateWallet | backend/internal/core/services/wallet_service.go:22-40 | Returns the user's wallet with its current balance, creating it when missing. |
| Wallets.WalletService.CreditWallet | backend/internal/core/services/wallet_service.go:64-98 | A non-positive amount fails with "amount must be positive" and changes nothing. Otherwise the amount is booked to the user's wallet and recorded in the ledger. |
| Wallets.WalletService.DebitWallet | backend/internal/core/services/wallet_service.go:100-138 | A non-positive amount changes nothing. Too small a balance gives "insufficient funds", after the wallet is created. Otherwise the amount is deducted and recorded. |
| Wallets.WalletService.RequestPayout | backend/internal/core/services/wallet_service.go:140-160 | A payout succeeds iff the amount is positive and covered by the balance. It then debits the wallet and records a pending USD payout request. A failure records nothing: a non-positive amount gives "amount must be positive" and changes no wallet; too small a balance gives "insufficient funds" after the wallet is created. |
| Affiliates.Earned | backend/internal/core/services/affiliate_service.go:107 | The commission is `rate` percent of the amount. It is non-negative, positive for positive inputs, and at most the amount for a rate of at most 100. |
| Affiliates.NewLink | backend/internal/core/services/affiliate_service.go:71-77 | A new link carries the code, the referral URL built from it, the owner and program, zero clicks and a fresh id. |
| Affiliates.Clicked | backend/internal/adapters/repository/mongodb_affiliate.go:73-76 | A click adds one to the link's click count and changes nothing else. |
| Affiliates.Referral | backend/internal/core/services/affiliate_service.go:94-104 | A referral resolves iff a link with the code exists and its program exists. The result is that link and its program. |
| Affiliates.CommissionOf | backend/internal/core/services/affiliate_service.go:106-119 | The commission record names the link owner, the link and the order, keeps the total, earns `rate` percent of it and is marked paid. |
| Affiliates.AffiliateService.constructor | backend/internal/core/services/affiliate_service.go:20-25 | The service starts empty over the given wallet service. |
| Affiliates.AffiliateService.CreateProgram | backend/internal/core/services/affiliate_service.go:27-54 | Appends an active program with the given creator, product and rate. |
| Affiliates.AffiliateService.GenerateLink | backend/internal/core/services/affiliate_service.go:56-83 | A taken code fails with "affiliate code already taken" and changes nothing. Otherwise the new link is appended. |
| Affiliates.AffiliateService.TrackClick | backend/internal/core/services/affiliate_service.go:85-91 | An unknown code fails and changes nothing. Otherwise only that link gains a click. |
| Affiliates.AffiliateService.ProcessCommission | backend/internal/core/services/affiliate_service.go:93-139 | An unknown referral fails and changes nothing. Otherwise the commission is recorded and, when positive, credited to the affiliate's wallet with a ledger entry. A zero commission is recorded but reported as a failed credit. Payout requests are never touched. |
| Payments.TierCap | backend/internal/core/services/payment_service.go:154-157 | The upper bound of a tier is its `max_qty`, or 1000000000 for an unbounded tier. |
| Payments.EffectiveQuantity | backend/internal/core/services/payment_service.go:148-150 | A quantity of 0 or less is charged as 1; any other quantity is kept. |
| Payments.ChosenTierFirstMatch | backend/internal/core/services/payment_service.go:153-163 | A tier is chosen iff some tier's range holds the quantity. The chosen tier is the first such tier. |
| Payments.TieredCharge | backend/internal/core/services/payment_service.go:147-168 | A tiered charge exists iff a tier fits the effective quantity. It is the chosen tier's unit price times the effective quantity, in USD. Otherwise it fails with "invalid quantity". |
| Payments.TwoTierExample | backend/internal/core/services/payment_service.go:147-167 | With tiers 1-10 at 10 and 11 upwards at 8, five units cost 50 and fifty units cost 400, and every quantity up to the cap is priced. |
| Payments.TieredQuantityDefault | backend/internal/core/services/payment_service.go:148-150 | Any quantity of 0 or less is charged exactly like a quantity of 1. |
| Payments.UnboundedTierIsCapped | backend/internal/core/services/payment_service.go:155-158 | A quantity above 1000000000 does not fit even an unbounded tier. |
| Payments.ScanTiers | backend/internal/core/services/payment_service.go:151-163 | The tier loop finds a tier iff the first-match specification does, and returns that tier's unit price. |
| Payments.FloatDivide | backend/internal/core/services/payment_service.go:138 | Division by a non-zero count gives the exact quotient; division of a positive amount by zero gives +Inf, as Go's float division does. |
| Payments.SplitAmountAsWritten | backend/internal/core/services/payment_service.go:134-139 | The service's amount is the upfront payment when there is one. Otherwise it is the total divided by the count: a finite quotient for a non-zero count, +Inf for no installments. |
| Payments.SplitZeroInstallmentsAsWritten | backend/internal/core/services/payment_service.go:134-140 | A split plan with no installments and no upfront payment passes plan creation, and its checkout amount as written is +Inf. |
| Payments.SplitNegativeInstallmentsAsWritten | backend/internal/core/services/payment_service.go:134-140 | A split plan with a negative installment count and no upfront payment passes plan creation, and the service's amount is negative. The corrected charge refuses it. |
| Payments.SplitCharge | backend/internal/core/services/payment_service.go:134-140 | The split charge is the upfront payment when there is one, and otherwise one installment: installment times count equals the total. It is refused ("invalid installment count", a message of this model) when there is no upfront payment and the count is not positive. |
| Payments.SplitChargeAgreesWhereDefined | backend/internal/core/services/payment_service.go:134-140 | Wherever the source's amount is meaningful (an upfront payment or a positive count), the corrected charge equals it. The remaining cases are the two Findings. |
| Payments.SplitChargePositive | backend/internal/core/services/payment_service.go:134-140 | The corrected charge of a valid split plan is positive. The source's charge is not: see Findings. |
| Payments.BaseCharge | backend/internal/core/services/payment_service.go:120-171 | The amount switch fails only with the source's messages or the corrected split refusal "invalid installment count". An unknown type gives "unsupported plan type". |
| Payments.FixedPriceCharges | backend/internal/core/services/payment_service.go:124-133 | One-time, subscription and bundle plans are charged their configured price, the same base that coupons and the final-price endpoint use. One-time and subscription plans are charged in their configured currency, and bundles in USD. |
| Payments.DonationCharge | backend/internal/core/services/payment_service.go:141-146 | A donation is charged the given amount in the plan's currency iff it reaches the minimum. Otherwise it fails with "donation amount below minimum". |
| Payments.BaseChargeNonNegative | backend/internal/core/services/payment_service.go:120-171 | With the corrected split charge, every charge of a valid plan with non-negative tier prices is non-negative. |
| Payments.ResolveCharge | backend/internal/core/services/payment_service.go:120-171 | The imperative switch with its tier loop computes exactly the specified charge. |
| Payments.Discounted | backend/internal/core/services/payment_service.go:179-182 | Subtracting the discount never goes below 0 and never exceeds the undiscounted amount. |
| Payments.Metadata | backend/internal/core/services/payment_service.go:193-202 | Metadata always holds plan and user ids, and holds the affiliate and coupon codes exactly when they are non-empty. |
| Payments.MetadataRoundTrip | backend/internal/core/services/payment_service.go:213-227 | Reading the affiliate and coupon codes back from the metadata gives the codes given at checkout. |
| Payments.IntentRequest | backend/internal/core/services/payment_service.go:120-204 | The payment intent carries the charge's currency and the metadata. It fails with the charge's error, or with "invalid coupon: " and the coupon's rejection. Its amount is the charge, discounted when a coupon applies. |
| Payments.IntentAmountBounds | backend/internal/core/services/payment_service.go:173-183 | With the corrected split charge, an accepted non-tiered intent's amount lies between 0 and the undiscounted charge. |
| Payments.Registered | backend/internal/core/services/payment_service.go:86-95 | Registering a customer changes only the user's processor customer id and time, and changes nothing when the user already has one. |
| Payments.SubscriptionPathRequests | backend/internal/core/services/payment_service.go:78-116 | The subscription path creates a customer iff the user has none and never creates a payment intent. It ends with the subscription for the customer iff the customer exists; a failed customer creation is the only request. |
| Payments.PaymentService.constructor | backend/internal/core/services/payment_service.go:36-41 | The service is built over the collaborating services and the user store. |
| Payments.PaymentService.Subscribe | backend/internal/core/services/payment_service.go:85-116 | Sends exactly the subscription-path requests for the user, stores the new customer id, and returns the subscription reply. |
| Payments.PaymentService.OpenSubscription | backend/internal/core/services/payment_service.go:79-116 | An unknown user fails and changes nothing. Otherwise the stored user subscribes. |
| Payments.PaymentService.PayOnce | backend/internal/core/services/payment_service.go:118-204 | Sends the payment intent when it can be built and returns the processor's answer. Otherwise it returns the error and sends nothing. |
| Payments.PaymentService.InitiateCheckout | backend/internal/core/services/payment_service.go:36-205 | An unknown plan fails and changes nothing. A subscription plan with a processor price takes the subscription path; every other plan pays once through a payment intent. |
| Payments.PaymentService.PlanIndexOf | backend/internal/core/services/pricing_service.go:121-127 | A plan found in the store is a stored plan, and so carries its type's configuration. |
| Payments.PaymentService.SettleReferral | backend/internal/core/services/payment_service.go:213-224 | With an affiliate code, the commission step runs; without one, nothing changes. Payout requests are never touched. |
| Payments.PaymentService.ProcessPaymentSuccess | backend/internal/core/services/payment_service.go:208-235 | The referral is settled first. A failure there stops before coupons are touched; otherwise a coupon code in the metadata gains one use. Payout requests are never touched. |
| Payments.PaymentService.CountCouponUse | backend/internal/core/services/payment_service.go:226-232 | A non-empty coupon code gains one use; an empty one changes nothing. |
| ProductToggle.Toggle | frontend/src/features/pricing/components/forms/BundleForm.tsx:20-27 | The product is listed after the toggle iff it was not listed before. |
| ProductToggle.ToggleAbsentAppends | frontend/src/features/pricing/components/forms/BundleForm.tsx:22-24 | Toggling an unlisted product appends it at the end and keeps the list before it. |
| ProductToggle.TogglePresentRemoves | frontend/src/features/pricing/components/forms/BundleForm.tsx:22-23 | Toggling a listed product removes every copy of it and nothing else, and shortens the list. |
| ProductToggle.ToggleKeepsOthers | frontend/src/features/pricing/components/forms/BundleForm.tsx:20-27 | Other products stay listed or unlisted as they were. |
| ProductToggle.ToggleKeepsOrder | frontend/src/features/pricing/components/forms/BundleForm.tsx:22-23 | Removal keeps the order of the remaining products. |
| ProductToggle.ToggleTwiceRestores | frontend/src/features/pricing/components/forms/BundleForm.tsx:20-27 | Toggling an unlisted product twice gives back the original list. |
| BundleForm.ToggleProduct | frontend/src/features/pricing/components/forms/BundleForm.tsx:20-27 | Toggling keeps the bundle prices and flips whether the product is included. |
| BundleForm.ToggleProductTwice | frontend/src/features/pricing/components/forms/BundleForm.tsx:20-27 | Including and then excluding a product restores the included list. |
| UpsellForm.ToggleProduct | frontend/src/features/pricing/components/forms/UpsellForm.tsx:19-26 | Toggling flips whether the product is offered as an upsell. |
| UpsellForm.ToggleProductTwice | frontend/src/features/pricing/components/forms/UpsellForm.tsx:19-26 | Offering and then withdrawing a product restores the upsell list. |
| TieredForm.NumberText | frontend/src/features/pricing/components/forms/TieredForm.tsx:17 | A tier number is written as a non-empty string of decimal digits. |
| TieredForm.NumberTextRoundTrip | frontend/src/features/pricing/components/forms/TieredForm.tsx:17 | Reading back the digits of a tier number gives the number. |
| TieredForm.AddTier | frontend/src/features/pricing/components/forms/TieredForm.tsx:15-23 | Adding a tier keeps the existing tiers and appends "Tier n+1" covering 1 to 10 at 10 per unit. |
| TieredForm.Spliced | frontend/src/features/pricing/components/forms/TieredForm.tsx:25-29 | Removing at an index follows JavaScript `splice`: negative indices count from the end, and out-of-range ones remove nothing or the first tier. |
| TieredForm.RemoveTier | frontend/src/features/pricing/components/forms/TieredForm.tsx:25-29 | The tier list after removal is the spliced list. |
| TieredForm.RemoveTierDropsOne | frontend/src/features/pricing/components/forms/TieredForm.tsx:25-29 | Removing at a valid index drops exactly that tier and shifts the later ones down. |
| TieredForm.WithField | frontend/src/features/pricing/components/forms/TieredForm.tsx:33 | Setting a field makes it read back as set, and every other field reads as before. |
| TieredForm.UpdateTier | frontend/src/features/pricing/components/forms/TieredForm.tsx:31-35 | Updating a tier changes only that tier, and only the chosen field. |
| TieredForm.MaxQtyFromInput | frontend/src/features/pricing/components/forms/TieredForm.tsx:78 | An empty max-quantity input stores -1 (unbounded); any other input stores its number. |
| TieredForm.MaxQtyShown | frontend/src/features/pricing/components/forms/TieredForm.tsx:76 | The max-quantity box is empty iff the tier is unbounded. |
| TieredForm.MaxQtyRoundTrip | frontend/src/features/pricing/components/forms/TieredForm.tsx:76-78 | Showing and re-reading a stored bound gives it back. Re-reading and showing an input gives it back, except that a typed -1 shows as empty. |
| SplitPaymentForm.InstallmentAmount | frontend/src/features/pricing/components/forms/SplitPaymentForm.tsx:14-16 | The preview is 0 unless total and count are given. Otherwise installment times count is the total minus the upfront payment. |
| SplitPaymentForm.InstallmentsCoverTotal | frontend/src/features/pricing/components/forms/SplitPaymentForm.tsx:14-16 | Upfront payment plus all installments equals the total. |
| SplitPaymentForm.SummaryCondition | frontend/src/features/pricing/components/forms/SplitPaymentForm.tsx:115 | The summary is hidden without total and count. With a positive count, it is shown iff the upfront payment is below the total. |
| SplitPaymentForm.ExamplePreview | frontend/src/features/pricing/components/forms/SplitPaymentForm.tsx:14-16 | A total of 100 with 20 upfront over 4 installments previews 20 per installment, and the summary is shown. |
| SplitPaymentForm.OrDefault | frontend/src/features/pricing/components/forms/SplitPaymentForm.tsx:23 | A missing or empty selection shows the default, and any other shows itself. |
| SplitPaymentForm.Edited | frontend/src/features/pricing/components/forms/SplitPaymentForm.tsx:24-109 | Each input changes only its own field of the configuration. |
| SplitPaymentForm.EditsIndependent | frontend/src/features/pricing/components/forms/SplitPaymentForm.tsx:24-109 | Edits of different fields commute, and a later edit of the same field overrides the earlier one. |
| SplitPaymentForm.PreviewDependsOnAmounts | frontend/src/features/pricing/components/forms/SplitPaymentForm.tsx:14-16 | Changing currency, original price or interval leaves the installment preview unchanged. |
| PricingPage.Placeholder | frontend/src/features/pricing/components/PricingPage.tsx:64 | A missing value interpolates as "undefined". |
| PricingPage.FormatPrice | frontend/src/features/pricing/components/PricingPage.tsx:62-70 | One-time plans show "$price USD" (or "$undefined USD" without a configuration). Subscriptions show "$price / interval". Every other type shows "Custom Pricing". |
| PricingPage.FormatPriceReadsMatchingConfig | frontend/src/features/pricing/components/PricingPage.tsx:62-70 | The label depends only on the type and that type's configuration. |
| PricingForm.BuildCreatePayload | frontend/src/features/pricing/components/PricingForm.tsx:27-48 | The payload carries the form fields, the fixed product and values, and a USD configuration exactly for the selected one-time or subscription type. |
| PricingForm.Received | frontend/src/features/pricing/components/PricingForm.tsx:27-49 | The plan the back end decodes has the payload's name, type and configurations, and no other configuration or overlay. |
| PricingForm.SubmittedPlanAccepted | backend/internal/core/services/pricing_service.go:23-94 | A plan created from the form passes validation iff it has a name, a one-time or subscription type, and a non-negative price. |
| PricingForm.PreviewSuffix | frontend/src/features/pricing/components/PricingForm.tsx:143-145 | The preview says "/interval" for subscriptions and "Lifetime access" otherwise. |
| PricingForm.PricingForm.constructor | frontend/src/features/pricing/components/PricingForm.tsx:12-23 | The form starts as a one-time "Premium Plan" at 50 per month, with an empty description. |
| PricingForm.PricingForm.ChooseOneTime | frontend/src/features/pricing/components/PricingForm.tsx:58-64 | The one-time card selects that type and keeps every other field. |
| PricingForm.PricingForm.ChooseSubscription | frontend/src/features/pricing/components/PricingForm.tsx:66-72 | The subscription card selects that type and keeps every other field. |
| PricingForm.PricingForm.SetName | frontend/src/features/pricing/components/PricingForm.tsx:81 | Only the name changes. |
| PricingForm.PricingForm.SetDescription | frontend/src/features/pricing/components/PricingForm.tsx:87-88 | Only the description changes. |
| PricingForm.PricingForm.SetPrice | frontend/src/features/pricing/components/PricingForm.tsx:101-102 | Only the price changes. |
| PricingForm.PricingForm.SetInterval | frontend/src/features/pricing/components/PricingForm.tsx:116-117 | Only the interval changes. |
| PricingForm.PricingForm.PayloadHasOneConfig | frontend/src/features/pricing/components/PricingForm.tsx:36-47 | A submission from the form carries exactly one configuration. It is accepted iff the name is non-empty and the price is non-negative. |
| EditPlanModal.InitialValuesAreStored | frontend/src/features/pricing/components/EditPlanModal.tsx:30-37 | For a plan holding only its own type's configuration, the dialog starts from the plan's price (its discount base) and, for a subscription, from its interval. |
| EditPlanModal.OneTimeConfigTakesPrecedence | frontend/src/features/pricing/components/EditPlanModal.tsx:30-31 | A present one-time configuration supplies the starting price whatever the plan's type. |
| EditPlanModal.BuildUpdatePayload | frontend/src/features/pricing/components/EditPlanModal.tsx:52-63 | The update sends name and description; the price iff the type is one-time, subscription or bundle; and the interval iff it is a subscription. |
| EditPlanModal.UpdateRequest | frontend/src/features/pricing/components/EditPlanModal.tsx:42-45 | No request is sent iff there is no plan or it has no id. Otherwise the payload goes to that plan's id. |
| EditPlanModal.EditPlanModal.constructor | frontend/src/features/pricing/components/EditPlanModal.tsx:18-21 | The dialog starts empty, at price 0 and a monthly interval. |
| EditPlanModal.EditPlanModal.Init | frontend/src/features/pricing/components/EditPlanModal.tsx:24-39 | Opening on a plan copies name and description and takes the starting price and interval. Opening without a plan changes nothing. |
| EditPlanModal.EditPlanModal.SetName | frontend/src/features/pricing/components/EditPlanModal.tsx:82 | Only the name changes. |
| EditPlanModal.EditPlanModal.SetDescription | frontend/src/features/pricing/components/EditPlanModal.tsx:86 | Only the description changes. |
| EditPlanModal.EditPlanModal.SetPrice | frontend/src/features/pricing/components/EditPlanModal.tsx:98 | Only the price changes. |
| EditPlanModal.EditPlanModal.SetInterval | frontend/src/features/pricing/components/EditPlanModal.tsx:110 | Only the interval changes. |
| EditPlanModal.UneditedSaveKeepsPlan | backend/internal/core/services/pricing_service.go:164-186 | Saving a stored plan without edits leaves it unchanged except its update time. The price and interval sent are the plan's own. |

## Left out

- **Id parsing.** Hex object-id parsing and its errors are left out, because ids are opaque strings here. This covers "invalid plan ID", "invalid user ID" and the errors of `ObjectIDFromHex` in the affiliate service.
- **Database errors.** Errors of the database itself (connection, write failures) are left out. Every repository call succeeds on the in-memory store.
- **Money arithmetic.** Floating-point rounding is not modelled: amounts are exact reals. The cents conversion of the application fee is left out with the fee.
- Payments.PaymentService.InitiateCheckout: does not model the creator lookup, the connected-account destination or the application fee (payment_service.go:43-74 and 185-190). These only choose extra processor arguments that the model's requests do not carry.
- Payments.BaseCharge: for a split plan without upfront payment and with an installment count of 0 or less, it returns "invalid installment count". The source charges +Inf for a count of 0 and a negative amount for a negative count. This is the correction recorded under Findings, and `Payments.SplitAmountAsWritten` keeps the source's behaviour. `Payments.ResolveCharge`, `Payments.SplitChargePositive`, `Payments.BaseChargeNonNegative` and `Payments.IntentAmountBounds` state the corrected behaviour.
- **Time and order ids.** The clock (`time.Now()`) is the `now` parameter. The order id the webhook step generates (`primitive.NewObjectID()`) is the `orderId` parameter of `Payments.PaymentService.ProcessPaymentSuccess`.
- **Processor.** The processor's network calls are not modelled. The processor's answers are an arbitrary fixed function (`PaymentGateway.Gateway.respond`).
- **Concurrency.** Requests are modelled one at a time. In the source, concurrent requests can interleave:
  - credits and debits read the balance and then write a new one (wallet_service.go:83-97 and 111-137), so a credit or debit can be lost;
  - coupon creation counts existing codes and then inserts (mongo_coupon_repository.go:27-33);
  - link creation checks the code and then inserts (affiliate_service.go:66-77);
  - so two requests can store a duplicate code.
  `Wallets.Consistent` and the unique-code parts of the services' `Valid()` invariants are therefore proved only for sequential calls.
- **Query endpoints.** `GetBalance`, `GetTransactions`, `ListPlans`, `DeletePlan`, `GetCoupon`, `ListCoupons` and `GetMyStats` are left out. They only read or delete records and state nothing beyond the lookup already modelled.
- PricingPage.FormatPrice: the number-to-text conversion of JavaScript is the parameter `show`. The model does not fix how a number prints.
- SplitPaymentForm.InstallmentAmount: `toFixed(2)` rounding in the summary text is not modelled. An installment count of 0 counts as not given, as JavaScript truthiness does, but NaN inputs are not modelled.
- TieredForm.UpdateTier: requires an index inside the tier list. In JavaScript an index past the end would create a tier with only the edited field.
- EditPlanModal.EditPlanModal.Init: the effect's re-run whenever the dialog opens is modelled as a separate call.
- **Rendering and network.** React rendering, query invalidation and the network calls of the mutations are left out. The model stops at the payload each form sends.
- **Callbacks.** The form callbacks (`onChange`) receive the new configuration; the model returns it instead.
- **Other sub-forms.** The one-time, subscription and donation sub-forms are not part of this model.

## Findings

| source | as written | input that shows it | evidently intended | confidence | as-written member | corrected member |
|---|---|---|---|---|---|---|
| backend/internal/core/services/payment_service.go:138 | A split plan without an upfront payment is charged `TotalAmount / float64(InstallmentCount)`. Plan creation (pricing_service.go:51-54) never checks the count. | A split plan with `total_amount = 100`, `installment_count = 0` and no upfront payment is accepted and then charged +Inf at checkout. | Checkout refuses a split plan with no installments instead of requesting an infinite charge. | not executed | Payments.SplitZeroInstallmentsAsWritten | Payments.SplitCharge |
| backend/internal/core/services/payment_service.go:138 | The same division with a negative installment count gives a negative amount. Plan creation does not refuse the count. | A split plan with `total_amount = 100`, `installment_count = -4` and no upfront payment is accepted and then charged -25 at checkout (0 once a coupon clamps it). | Checkout refuses a non-positive installment count instead of requesting a negative charge. | not executed | Payments.SplitNegativeInstallmentsAsWritten | Payments.SplitCharge |

/**
 * The split-payment form: the per-installment amount it previews, when the preview is shown,
 * the defaults its selects display, and its field edits. Numbers follow JavaScript truthiness:
 * an absent or zero field counts as missing.
 */
module SplitPaymentForm {
  import opened Wrappers
  import opened Domain

  /** The form's partial configuration; an untouched field is absent. */
  datatype SplitDraft = SplitDraft(
    totalAmount: Option<real>, originalPrice: Option<real>, currency: Option<string>,
    installmentCount: Option<real>, interval: Option<string>, upfrontPayment: Option<real>)

  /** A number field that is present and non-zero. */
  predicate Given(x: Option<real>)
  {
    x.Some? && x.value != 0.0
  }

  /** `x || 0` */
  function OrZero(x: Option<real>): real
  {
    if Given(x) then x.value else 0.0
  }

  /** `(total && count) ? (total - (upfront || 0)) / count : 0` */
  function InstallmentAmount(d: SplitDraft): (a: real)
    ensures !Given(d.totalAmount) || !Given(d.installmentCount) ==> a == 0.0
    ensures Given(d.totalAmount) && Given(d.installmentCount) ==>
      a * d.installmentCount.value == d.totalAmount.value - OrZero(d.upfrontPayment)
  {
    if Given(d.totalAmount) && Given(d.installmentCount) then
      (d.totalAmount.value - OrZero(d.upfrontPayment)) / d.installmentCount.value
    else 0.0
  }

  /** The upfront part and the installments together make up the total whenever both are given. */
  lemma InstallmentsCoverTotal(d: SplitDraft)
    requires Given(d.totalAmount) && Given(d.installmentCount)
    ensures OrZero(d.upfrontPayment) + d.installmentCount.value * InstallmentAmount(d) == d.totalAmount.value
  {
  }

  /** The "Students will pay ..." summary is rendered only for a positive installment amount. */
  predicate ShowsSummary(d: SplitDraft)
  {
    InstallmentAmount(d) > 0.0
  }

  /** No summary without a total and a count; with a positive count, a summary exactly when the upfront part leaves something. */
  lemma SummaryCondition(d: SplitDraft)
    ensures !Given(d.totalAmount) || !Given(d.installmentCount) ==> !ShowsSummary(d)
    ensures Given(d.totalAmount) && Given(d.installmentCount) && d.installmentCount.value > 0.0 ==>
      (ShowsSummary(d) <==> OrZero(d.upfrontPayment) < d.totalAmount.value)
  {
    if Given(d.totalAmount) && Given(d.installmentCount) && d.installmentCount.value > 0.0 {
      var a, n := InstallmentAmount(d), d.installmentCount.value;
      assert a * n == d.totalAmount.value - OrZero(d.upfrontPayment);
      if a > 0.0 {
        assert a * n > 0.0;
      } else {
        assert a * n <= 0.0;
      }
    }
  }

  /** 100 in 4 installments with 20 upfront previews 20 per installment. */
  lemma ExamplePreview()
    ensures InstallmentAmount(SplitDraft(Some(100.0), None, None, Some(4.0), None, Some(20.0))) == 20.0
    ensures ShowsSummary(SplitDraft(Some(100.0), None, None, Some(4.0), None, Some(20.0)))
  {
  }

  /** `value || default` on a select's string value. */
  function OrDefault(x: Option<string>, default: string): (s: string)
    ensures x.Some? && x.value != "" ==> s == x.value
    ensures x.None? || x.value == "" ==> s == default
  {
    if x.Some? && x.value != "" then x.value else default
  }

  /** The currency select shows USD and the interval select "month" until something is chosen. */
  function CurrencyShown(d: SplitDraft): string
  {
    OrDefault(d.currency, Usd)
  }

  function IntervalShown(d: SplitDraft): string
  {
    OrDefault(d.interval, Month)
  }

  /** One `onChange`: the field it addresses and the value it writes. */
  datatype SplitEdit =
    | SetCurrency(currency: string)
    | SetOriginalPrice(originalPrice: real)
    | SetTotalAmount(totalAmount: real)
    | SetInstallmentCount(installmentCount: real)
    | SetInterval(interval: string)
    | SetUpfrontPayment(upfrontPayment: real)

  /** `{ ...config, [field]: value }` */
  function Edited(d: SplitDraft, e: SplitEdit): (r: SplitDraft)
    ensures r.currency == (if e.SetCurrency? then Some(e.currency) else d.currency)
    ensures r.originalPrice == (if e.SetOriginalPrice? then Some(e.originalPrice) else d.originalPrice)
    ensures r.totalAmount == (if e.SetTotalAmount? then Some(e.totalAmount) else d.totalAmount)
    ensures r.installmentCount == (if e.SetInstallmentCount? then Some(e.installmentCount) else d.installmentCount)
    ensures r.interval == (if e.SetInterval? then Some(e.interval) else d.interval)
    ensures r.upfrontPayment == (if e.SetUpfrontPayment? then Some(e.upfrontPayment) else d.upfrontPayment)
  {
    match e
    case SetCurrency(v) => d.(currency := Some(v))
    case SetOriginalPrice(v) => d.(originalPrice := Some(v))
    case SetTotalAmount(v) => d.(totalAmount := Some(v))
    case SetInstallmentCount(v) => d.(installmentCount := Some(v))
    case SetInterval(v) => d.(interval := Some(v))
    case SetUpfrontPayment(v) => d.(upfrontPayment := Some(v))
  }

  /** Which field an edit addresses. */
  function FieldOf(e: SplitEdit): nat
  {
    match e
    case SetCurrency(_) => 0
    case SetOriginalPrice(_) => 1
    case SetTotalAmount(_) => 2
    case SetInstallmentCount(_) => 3
    case SetInterval(_) => 4
    case SetUpfrontPayment(_) => 5
  }

  /**
   * Edits of different fields do not interfere, whatever their order, and a second edit of the
   * same field overrides the first.
   */
  lemma EditsIndependent(d: SplitDraft, e1: SplitEdit, e2: SplitEdit)
    ensures FieldOf(e1) != FieldOf(e2) ==> Edited(Edited(d, e1), e2) == Edited(Edited(d, e2), e1)
    ensures FieldOf(e1) == FieldOf(e2) ==> Edited(Edited(d, e1), e2) == Edited(d, e2)
  {
  }

  /** Only total, count and upfront edits can change the previewed installment. */
  lemma PreviewDependsOnAmounts(d: SplitDraft, e: SplitEdit)
    requires e.SetCurrency? || e.SetOriginalPrice? || e.SetInterval?
    ensures InstallmentAmount(Edited(d, e)) == InstallmentAmount(d)
  {
  }
}

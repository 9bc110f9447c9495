/** The point-of-sale payment modal of src/components/modals/paymentModal.tsx:
    the amount checks before a payment is confirmed, the choice of the screen to
    show, the "payment accepted" summary, and the removal of a recorded payment.
    Amounts are in cents; the dollar strings the page parses and formats are
    outside the model. `subTotal`, `paidSoFar`, `payments` and `paymentAmounts`
    come from the cart and are inputs or state here. */
module PaymentModal {
  import opened Wrappers

  datatype Tender = Eftpos | Cash | UberEats | Menulog

  const ZeroMessage := "Value cannot be 0.00"
  const NegativeMessage := "Value must be greater than 0"
  const OverRemainingMessage := "Amount cannot be greater than remaining"

  /** The checks `onClickEftpos`, `onClickCash`, `onClickUberEats` and
      `onClickMenulog` apply to an amount: the error to show, or the amount to confirm. */
  function AmountCheck(tender: Tender, cents: int, remaining: int): (r: Result<int, string>)
    ensures r.Ok? ==> r.value == cents
    ensures tender == Eftpos ==> (r.Ok? <==> 0 < cents <= remaining)
    ensures tender != Eftpos ==> (r.Ok? <==> cents != 0)
    ensures cents == 0 ==> r == Err(ZeroMessage)
    ensures tender == Eftpos && cents < 0 ==> r == Err(NegativeMessage)
    ensures tender == Eftpos && 0 < cents && cents > remaining ==> r == Err(OverRemainingMessage)
  {
    if cents == 0 then Err(ZeroMessage)
    else if tender == Eftpos && cents <= 0 then Err(NegativeMessage)
    else if tender == Eftpos && cents > remaining then Err(OverRemainingMessage)
    else Ok(cents)
  }

  /** A confirmed card payment never takes more than what remains of the subtotal,
      while a cash, Uber Eats or Menulog amount is passed on even when negative or
      above what remains. */
  lemma OnlyEftposIsBounded(cents: int, subTotal: int, paidSoFar: int)
    ensures AmountCheck(Eftpos, cents, subTotal - paidSoFar).Ok? ==> 0 < cents && paidSoFar + cents <= subTotal
    ensures cents != 0 ==> AmountCheck(Cash, cents, subTotal - paidSoFar) == Ok(cents)
    ensures AmountCheck(Eftpos, cents, subTotal - paidSoFar).Ok? ==> AmountCheck(Cash, cents, subTotal - paidSoFar).Ok?
  {
  }

  // ---------------------------------------------------------------------------
  // Which screen the modal shows

  datatype ModalState = PosScreen | AwaitingCard | EftposResult | CashResult | UberEatsResult | MenulogResult
                      | PayLater | Park | ThirdPartyIntegrationAwaitingResponse | CreatingOrder

  datatype EftposOutcomeKind = Success | Fail | ProcessMessage | OtherOutcome

  datatype EftposOutcome = EftposOutcome(kind: EftposOutcomeKind, message: string)

  datatype Screen = CreateOrderFailed(error: string) | ProgressMessage(message: string) | PaymentScreen
                  | AwaitingCardScreen | PaymentAccepted | PaymentFailed(message: string) | NothingShown
                  | CashPaymentPosScreen | CashPaymentScreen | UberEatsScreen | MenulogScreen | PayLaterScreen | ParkScreen
                  | ProcessingOrder | CreatingOrderScreen

  /** getActivePaymentModalComponent */
  function ActiveScreen(createOrderError: Option<string>, processMessage: Option<string>, state: ModalState,
                        outcome: Option<EftposOutcome>, isPos: bool): (r: Screen)
    ensures Truthy(createOrderError) <==> r.CreateOrderFailed?
    ensures r.CreateOrderFailed? ==> r.error == createOrderError.value
    ensures !Truthy(createOrderError) && Truthy(processMessage) ==> r == ProgressMessage(processMessage.value)
    ensures r in {PaymentAccepted, NothingShown} || r.PaymentFailed? ==> state == EftposResult && outcome.Some?
    ensures state == EftposResult && outcome.None? && !Truthy(createOrderError) && !Truthy(processMessage) ==>
              r == CreatingOrderScreen
  {
    if Truthy(createOrderError) then CreateOrderFailed(createOrderError.value)
    else if Truthy(processMessage) then ProgressMessage(processMessage.value)
    else if state == PosScreen then PaymentScreen
    else if state == AwaitingCard then AwaitingCardScreen
    else if state == EftposResult && outcome.Some? then
      match outcome.value.kind
      case Success => PaymentAccepted
      case Fail => PaymentFailed(outcome.value.message)
      case ProcessMessage => ProgressMessage(outcome.value.message)
      case OtherOutcome => NothingShown
    else if state == CashResult then (if isPos then CashPaymentPosScreen else CashPaymentScreen)
    else if state == UberEatsResult then UberEatsScreen
    else if state == MenulogResult then MenulogScreen
    else if state == PayLater then PayLaterScreen
    else if state == Park then ParkScreen
    else if state == ThirdPartyIntegrationAwaitingResponse then ProcessingOrder
    else CreatingOrderScreen
  }

  /** What the PaymentAccepted screen offers. */
  datatype AcceptedView = OrderComplete | ContinueToNextPayment(remaining: int)

  function AcceptedSummary(subTotal: int, paidSoFar: int): (v: AcceptedView)
    ensures v.OrderComplete? <==> paidSoFar >= subTotal
    ensures v.ContinueToNextPayment? ==> v.remaining > 0 && paidSoFar + v.remaining == subTotal
  {
    if paidSoFar >= subTotal then OrderComplete else ContinueToNextPayment(subTotal - paidSoFar)
  }

  // ---------------------------------------------------------------------------
  // Recorded payments

  datatype PaymentType = CashPayment | UberEatsPayment | MenulogPayment | EftposPayment(provider: string)

  datatype Payment = Payment(kind: PaymentType, amount: int)

  /** The per-tender running amounts the cart keeps beside the list of payments. */
  datatype PaymentAmounts = PaymentAmounts(cash: int, eftpos: int, uberEats: int, menulog: int)

  /** The buckets a payment can be removed from. */
  datatype Bucket = CashBucket | UberEatsBucket | MenulogBucket

  function KindOf(b: Bucket): PaymentType {
    match b
    case CashBucket => CashPayment
    case UberEatsBucket => UberEatsPayment
    case MenulogBucket => MenulogPayment
  }

  function BucketAmount(a: PaymentAmounts, b: Bucket): int {
    match b
    case CashBucket => a.cash
    case UberEatsBucket => a.uberEats
    case MenulogBucket => a.menulog
  }

  /** The amounts with `delta` taken off one bucket. */
  function Debit(a: PaymentAmounts, b: Bucket, delta: int): (r: PaymentAmounts)
    ensures BucketAmount(r, b) == BucketAmount(a, b) - delta
    ensures forall c :: c != b ==> BucketAmount(r, c) == BucketAmount(a, c)
    ensures r.eftpos == a.eftpos
  {
    match b
    case CashBucket => a.(cash := a.cash - delta)
    case UberEatsBucket => a.(uberEats := a.uberEats - delta)
    case MenulogBucket => a.(menulog := a.menulog - delta)
  }

  /** The total of the payments of one kind. */
  function KindTotal(ps: seq<Payment>, kind: PaymentType): int {
    if ps == [] then 0
    else KindTotal(ps[..|ps| - 1], kind) + (if ps[|ps| - 1].kind == kind then ps[|ps| - 1].amount else 0)
  }

  lemma {:induction false} KindTotalConcat(a: seq<Payment>, b: seq<Payment>, kind: PaymentType)
    ensures KindTotal(a + b, kind) == KindTotal(a, kind) + KindTotal(b, kind)
    decreases |b|
  {
    if b == [] {
      assert a + b == a;
    } else {
      assert (a + b)[..|a + b| - 1] == a + b[..|b| - 1];
      KindTotalConcat(a, b[..|b| - 1], kind);
    }
  }

  /** Taking payment `i` out of the list takes its amount out of its kind's total only. */
  lemma KindTotalWithout(ps: seq<Payment>, i: nat, kind: PaymentType)
    requires i < |ps|
    ensures KindTotal(ps[..i] + ps[i + 1..], kind) ==
            KindTotal(ps, kind) - (if ps[i].kind == kind then ps[i].amount else 0)
  {
    assert ps == ps[..i] + [ps[i]] + ps[i + 1..];
    KindTotalConcat(ps[..i] + [ps[i]], ps[i + 1..], kind);
    KindTotalConcat(ps[..i], [ps[i]], kind);
    KindTotalConcat(ps[..i], ps[i + 1..], kind);
    assert [ps[i]][..0] == [];
  }

  /** Each removable bucket holds the total of the payments of its kind. */
  predicate InStep(ps: seq<Payment>, a: PaymentAmounts) {
    forall b :: BucketAmount(a, b) == KindTotal(ps, KindOf(b))
  }

  lemma RemovalKeepsBucketsInStep(ps: seq<Payment>, a: PaymentAmounts, b: Bucket, i: nat)
    requires i < |ps| && InStep(ps, a) && ps[i].kind == KindOf(b)
    ensures InStep(ps[..i] + ps[i + 1..], Debit(a, b, ps[i].amount))
  {
    forall c
      ensures BucketAmount(Debit(a, b, ps[i].amount), c) == KindTotal(ps[..i] + ps[i + 1..], KindOf(c))
    {
      KindTotalWithout(ps, i, KindOf(c));
    }
  }

  // ---------------------------------------------------------------------------
  // The modal

  class PaymentModalView {
    /** The amount field, in cents. */
    var amount: int
    var amountError: string
    var payments: seq<Payment>
    var paymentAmounts: PaymentAmounts
    /** The amounts handed to the `onConfirm…Transaction` callbacks, in call order. */
    var confirmations: seq<(Tender, int)>

    constructor (subTotal: int, payments: seq<Payment>, paymentAmounts: PaymentAmounts)
      ensures amount == subTotal && amountError == "" && confirmations == []
      ensures this.payments == payments && this.paymentAmounts == paymentAmounts
    {
      amount, amountError, confirmations := subTotal, "", [];
      this.payments, this.paymentAmounts := payments, paymentAmounts;
    }

    /** The effect on `[paymentAmounts, subTotal]`: the field offers what remains. */
    method RefreshAmount(subTotal: int, paidSoFar: int)
      modifies this
      ensures amount == subTotal - paidSoFar
      ensures amountError == old(amountError) && confirmations == old(confirmations)
      ensures payments == old(payments) && paymentAmounts == old(paymentAmounts)
    {
      amount := subTotal - paidSoFar;
    }

    /** Typing in the field stores the amount and clears the error. */
    method ChangeAmount(cents: int)
      modifies this
      ensures amount == cents && amountError == ""
      ensures confirmations == old(confirmations) && payments == old(payments) && paymentAmounts == old(paymentAmounts)
    {
      amount := cents;
      amountError := "";
    }

    /** A tender button: exactly one of showing an error and confirming the amount happens. */
    method ClickTender(tender: Tender, cents: int, subTotal: int, paidSoFar: int)
      modifies this
      ensures AmountCheck(tender, cents, subTotal - paidSoFar).Ok? ==>
                confirmations == old(confirmations) + [(tender, cents)] && amountError == old(amountError)
      ensures AmountCheck(tender, cents, subTotal - paidSoFar).Err? ==>
                confirmations == old(confirmations) && amountError == AmountCheck(tender, cents, subTotal - paidSoFar).error
      ensures amount == old(amount) && payments == old(payments) && paymentAmounts == old(paymentAmounts)
    {
      if cents == 0 {
        amountError := ZeroMessage;
        return;
      }
      if tender == Eftpos {
        var totalRemaining := subTotal - paidSoFar;
        if cents <= 0 {
          amountError := NegativeMessage;
          return;
        } else if cents > totalRemaining {
          amountError := OverRemainingMessage;
          return;
        }
      }
      confirmations := confirmations + [(tender, cents)];
    }

    /** onRetry: the card payment is attempted again with the amount in the field. */
    method Retry(subTotal: int, paidSoFar: int)
      modifies this
      ensures AmountCheck(Eftpos, old(amount), subTotal - paidSoFar).Ok? ==>
                confirmations == old(confirmations) + [(Eftpos, old(amount))]
      ensures AmountCheck(Eftpos, old(amount), subTotal - paidSoFar).Err? ==>
                confirmations == old(confirmations) && amountError == AmountCheck(Eftpos, old(amount), subTotal - paidSoFar).error
      ensures amount == old(amount) && payments == old(payments) && paymentAmounts == old(paymentAmounts)
    {
      ClickTender(Eftpos, amount, subTotal, paidSoFar);
    }

    /** onRemoveCashTransaction / onRemoveUberEatsTransaction / onRemoveMenulogTransaction */
    method RemoveTransaction(bucket: Bucket, index: nat)
      requires index < |payments|
      modifies this
      ensures payments == old(payments[..index] + payments[index + 1..])
      ensures paymentAmounts == Debit(old(paymentAmounts), bucket, old(payments[index].amount))
      ensures old(InStep(payments, paymentAmounts)) && old(payments[index].kind) == KindOf(bucket) ==>
                InStep(payments, paymentAmounts)
      ensures amount == old(amount) && amountError == old(amountError) && confirmations == old(confirmations)
    {
      var payment := payments[index];
      var newPayments := payments;
      var newAmount := BucketAmount(paymentAmounts, bucket) - payment.amount;
      newPayments := newPayments[..index] + newPayments[index + 1..];
      if old(InStep(payments, paymentAmounts)) && payment.kind == KindOf(bucket) {
        RemovalKeepsBucketsInStep(payments, paymentAmounts, bucket, index);
      }
      payments := newPayments;
      match bucket
      case CashBucket => paymentAmounts := paymentAmounts.(cash := newAmount);
      case UberEatsBucket => paymentAmounts := paymentAmounts.(uberEats := newAmount);
      case MenulogBucket => paymentAmounts := paymentAmounts.(menulog := newAmount);
    }
  }
}

/** The checkout page of src/components/page/checkout.tsx: the payment attempt
    against the configured EFTPOS terminal, the order submission that follows an
    approved payment (or a "pay later"), and the countdown back to the begin
    screen. Terminal SDKs, the order mutation, the clock and the order-number
    generator are outside the model: what they return is passed in. */
module Checkout {
  import opened Wrappers
  import opened Promotions
  import opened Cart

  /** ECheckoutTransactionOutcome */
  datatype CheckoutOutcome = Success | Fail | Delay | PayLater

  datatype Route = BeginOrder

  datatype Provider = Smartpay | Verifone | Windcave

  /** The terminal outcomes the page distinguishes; `Unrecognised` is any other value. */
  datatype SmartpayOutcome = Accepted | Declined | Cancelled | DeviceOffline | Unrecognised
  datatype WindcaveOutcome = Accepted | Declined | Cancelled | Unrecognised
  datatype VerifoneOutcome = Approved | ApprovedWithSignature | Cancelled | Declined | SettledOk
                           | HostUnavailable | SystemError | TransactionInProgress | TerminalBusy | Unrecognised

  /** What a terminal call does: it returns a value or throws an error message. */
  datatype TerminalCall<T> = Returned(value: T) | Threw(error: string)

  datatype WindcaveResult = WindcaveResult(outcome: WindcaveOutcome, eftposReceipt: Option<string>)
  datatype VerifoneResult = VerifoneResult(outcome: VerifoneOutcome, eftposReceipt: Option<string>)

  /** A Smartpay attempt: how often the poller reported a delay, then how it ended. */
  datatype SmartpayRun = SmartpayRun(delayCallbacks: nat, result: TerminalCall<SmartpayOutcome>)

  /** What each terminal would answer to this attempt; the dispatcher consults one of them. */
  datatype Terminals = Terminals(smartpay: SmartpayRun, windcave: TerminalCall<WindcaveResult>,
                                 verifone: TerminalCall<VerifoneResult>)

  const DeclinedMessage := "Transaction Declined! Please try again."
  const CancelledMessage := "Transaction Cancelled!"
  const DeviceOfflineMessage := "Transaction Cancelled! Please check if the device is powered on and online."
  const SignatureMessage := "Transaction Approved With Signature Not Allowed In Kiosk Mode!"
  const HostUnavailableMessage := "Transaction Host Unavailable! Please check if the device is powered on and online."
  const SystemErrorMessage := "Transaction System Error! Please try again later."
  const TerminalBusyMessage := "Terminal Is Busy! Please cancel the previous transaction before proceeding."
  const FailedMessage := "Transaction Failed!"

  /** How a finished terminal call sets the outcome and the error message; `None` leaves one as it is. */
  datatype Verdict = Verdict(outcome: Option<CheckoutOutcome>, message: Option<string>)

  function SmartpayVerdict(o: SmartpayOutcome): (v: Verdict)
    ensures v.outcome == Some(Success) <==> o == SmartpayOutcome.Accepted
    ensures v.outcome.Some? && v.outcome != Some(Delay) && v.outcome != Some(PayLater)
    ensures v.message.Some? <==> o in {SmartpayOutcome.Declined, SmartpayOutcome.Cancelled, DeviceOffline}
  {
    match o
    case Accepted => Verdict(Some(Success), None)
    case Declined => Verdict(Some(Fail), Some(DeclinedMessage))
    case Cancelled => Verdict(Some(Fail), Some(CancelledMessage))
    case DeviceOffline => Verdict(Some(Fail), Some(DeviceOfflineMessage))
    case Unrecognised => Verdict(Some(Fail), None)
  }

  function WindcaveVerdict(o: WindcaveOutcome): (v: Verdict)
    ensures v.outcome == Some(Success) <==> o == WindcaveOutcome.Accepted
    ensures v.outcome.Some? && v.outcome != Some(Delay) && v.outcome != Some(PayLater)
    ensures v.message.Some? <==> o in {WindcaveOutcome.Declined, WindcaveOutcome.Cancelled}
  {
    match o
    case Accepted => Verdict(Some(Success), None)
    case Declined => Verdict(Some(Fail), Some(DeclinedMessage))
    case Cancelled => Verdict(Some(Fail), Some(CancelledMessage))
    case Unrecognised => Verdict(Some(Fail), None)
  }

  function VerifoneVerdict(o: VerifoneOutcome): (v: Verdict)
    ensures v.outcome == Some(Success) <==> o == Approved
    ensures v.outcome.None? <==> o in {SettledOk, TransactionInProgress}
    ensures v.outcome.None? ==> v.message.None?
    ensures v.outcome == Some(Fail) <==> v.message.Some?
    ensures v.outcome != Some(Delay) && v.outcome != Some(PayLater)
  {
    match o
    case Approved => Verdict(Some(Success), None)
    case ApprovedWithSignature => Verdict(Some(Fail), Some(SignatureMessage))
    case Cancelled => Verdict(Some(Fail), Some(CancelledMessage))
    case Declined => Verdict(Some(Fail), Some(DeclinedMessage))
    case SettledOk => Verdict(None, None)
    case HostUnavailable => Verdict(Some(Fail), Some(HostUnavailableMessage))
    case SystemError => Verdict(Some(Fail), Some(SystemErrorMessage))
    case TransactionInProgress => Verdict(None, None)
    case TerminalBusy => Verdict(Some(Fail), Some(TerminalBusyMessage))
    case Unrecognised => Verdict(Some(Fail), Some(FailedMessage))
  }

  /** Declined and cancelled payments read the same on every terminal. */
  lemma TerminalsAgreeOnDeclineAndCancel()
    ensures SmartpayVerdict(SmartpayOutcome.Declined) == WindcaveVerdict(WindcaveOutcome.Declined)
            == VerifoneVerdict(VerifoneOutcome.Declined) == Verdict(Some(Fail), Some(DeclinedMessage))
    ensures SmartpayVerdict(SmartpayOutcome.Cancelled) == WindcaveVerdict(WindcaveOutcome.Cancelled)
            == VerifoneVerdict(VerifoneOutcome.Cancelled) == Verdict(Some(Fail), Some(CancelledMessage))
  {
  }

  /** On Verifone the message tells which failure occurred. */
  lemma VerifoneMessageIdentifiesOutcome(a: VerifoneOutcome, b: VerifoneOutcome)
    requires VerifoneVerdict(a).message.Some?
    requires VerifoneVerdict(a).message == VerifoneVerdict(b).message
    ensures a == b
  {
    var m := VerifoneVerdict(a).message.value;
    assert |SignatureMessage| == 62 && |CancelledMessage| == 22 && |DeclinedMessage| == 39;
    assert |HostUnavailableMessage| == 82 && |SystemErrorMessage| == 49;
    assert |TerminalBusyMessage| == 75 && |FailedMessage| == 19;
  }

  function ProviderOf(eftposProvider: string): Option<Provider> {
    if eftposProvider == "SMARTPAY" then Some(Smartpay)
    else if eftposProvider == "VERIFONE" then Some(Verifone)
    else if eftposProvider == "WINDCAVE" then Some(Windcave)
    else None
  }

  // ---------------------------------------------------------------------------
  // The order request createOrder sends

  /** A JSON key of the request: missing, `null`, or set. */
  datatype Field<T> = Absent | Null | Value(value: T)

  function FieldOf<T>(o: Option<T>): Field<T> {
    if o.Some? then Value(o.value) else Null
  }

  function OptionOf<T>(f: Field<T>): Option<T> {
    if f.Value? then Some(f.value) else None
  }

  datatype OrderStatus = New | Completed

  datatype OrderCategory = OrderCategory(id: Id, name: string, image: Field<string>)

  datatype OrderProduct = OrderProduct(id: Id, name: string, price: int, quantity: int, category: OrderCategory,
                                       image: Field<string>, notes: Field<string>,
                                       modifierGroups: Field<seq<ModifierGroup>>)

  /** The `variables` of the createOrder mutation. */
  datatype OrderInput = OrderInput(
    status: OrderStatus, paid: bool, orderType: OrderType, number: string,
    table: Field<string>, notes: Field<string>, eftposReceipt: Field<string>,
    total: int, discount: Field<real>, promotionId: Field<Id>, subTotal: real, registerId: Id,
    products: seq<OrderProduct>, placedAt: string, placedAtUtc: string,
    completedAt: Field<string>, completedAtUtc: Field<string>,
    orderUserId: Id, orderRestaurantId: Id)

  datatype Restaurant = Restaurant(id: Id, autoCompleteOrders: bool)

  /** A thrown value: a bare string, or an Error object carrying a message. */
  datatype Thrown = ThrownString(text: string) | ThrownError(message: string)

  /** What the page reads from the cart when it submits. */
  datatype CartSnapshot = CartSnapshot(orderType: Option<OrderType>, tableNumber: Option<string>, notes: string,
                                       products: Option<seq<CartProduct>>, total: int, subTotal: real,
                                       promotion: Option<CartPromotion>)

  /** Everything else a submission depends on: the signed-in user, the restaurant,
      the register, the generated order number, the two renderings of the clock
      and how the mutation itself ends (`None`: it stores the order). */
  datatype OrderEnv = OrderEnv(user: Option<Id>, restaurant: Option<Restaurant>, registerId: Id,
                               orderNumber: string, placedAt: string, placedAtUtc: string,
                               mutationError: Option<Thrown>)

  function Snapshot(c: CartStore): CartSnapshot
    reads c
  {
    CartSnapshot(c.orderType, c.tableNumber, c.notes, c.products, c.total, c.subTotal, c.promotion)
  }

  /** The deep copy of a cart line, before any key is deleted. */
  function Copy(p: CartProduct): OrderProduct {
    OrderProduct(p.id, p.name, p.price, p.quantity,
                 OrderCategory(p.category.id, p.category.name, FieldOf(p.category.image)),
                 FieldOf(p.image), FieldOf(p.notes), Value(p.modifierGroups))
  }

  /** The key deletions createOrder performs on each product of the copy. */
  function Strip(op: OrderProduct): OrderProduct {
    var groups := if op.modifierGroups.Value? && |op.modifierGroups.value| == 0 then Absent else op.modifierGroups;
    var image := if op.image == Null then Absent else op.image;
    var notes := if op.notes == Null || op.notes == Value("") then Absent else op.notes;
    var categoryImage := if op.category.image == Null then Absent else op.category.image;
    op.(modifierGroups := groups, image := image, notes := notes, category := op.category.(image := categoryImage))
  }

  /** A product with none of the keys createOrder strips. */
  predicate Clean(op: OrderProduct) {
    op.modifierGroups != Value([]) && op.image != Null && op.notes != Null && op.notes != Value("") &&
    op.category.image != Null
  }

  /** Reads a request product back as a cart line: a missing key is `null`, missing groups are none. */
  function Restore(op: OrderProduct): CartProduct {
    CartProduct(op.id, op.name, op.price, op.quantity,
                Category(op.category.id, op.category.name, OptionOf(op.category.image)),
                OptionOf(op.image), OptionOf(op.notes),
                if op.modifierGroups.Value? then op.modifierGroups.value else [])
  }

  /** Stripping a line leaves no empty key behind and loses nothing but the
      difference between empty and missing notes. */
  lemma StripLosesOnlyEmptiness(p: CartProduct)
    ensures Clean(Strip(Copy(p)))
    ensures Restore(Strip(Copy(p))) == p.(notes := if p.notes == Some("") then None else p.notes)
  {
    var r := Restore(Strip(Copy(p)));
    assert r.modifierGroups == p.modifierGroups;
    assert r.category == p.category;
  }

  function StripAll(ps: seq<OrderProduct>): (r: seq<OrderProduct>)
    ensures |r| == |ps| && forall i :: 0 <= i < |ps| ==> r[i] == Strip(ps[i])
  {
    seq(|ps|, i requires 0 <= i < |ps| => Strip(ps[i]))
  }

  function CopyAll(ps: seq<CartProduct>): (r: seq<OrderProduct>)
    ensures |r| == |ps| && forall i :: 0 <= i < |ps| ==> r[i] == Copy(ps[i])
  {
    seq(|ps|, i requires 0 <= i < |ps| => Copy(ps[i]))
  }

  /** The request as first assembled, before the auto-complete overrides and the deletions. */
  function Assembled(snap: CartSnapshot, env: OrderEnv, paid: bool, eftposReceipt: Option<string>): OrderInput
    requires snap.orderType.Some? && snap.products.Some? && env.user.Some? && env.restaurant.Some?
  {
    OrderInput(New, paid, snap.orderType.value, env.orderNumber,
               FieldOf(snap.tableNumber), Value(snap.notes), FieldOf(eftposReceipt), snap.total,
               if snap.promotion.Some? then Value(snap.promotion.value.discountedAmount) else Absent,
               if snap.promotion.Some? then Value(snap.promotion.value.promotion.id) else Absent,
               snap.subTotal, env.registerId, CopyAll(snap.products.value), env.placedAt, env.placedAtUtc,
               Absent, Absent, env.user.value, env.restaurant.value.id)
  }

  /** The request createOrder sends, or the string it throws when a check fails. */
  function OrderRequest(snap: CartSnapshot, env: OrderEnv, paid: bool, eftposReceipt: Option<string>): Result<OrderInput, string> {
    if env.user.None? then Err("Invalid user")
    else if snap.orderType.None? then Err("Invalid order type")
    else if env.restaurant.None? then Err("Invalid restaurant")
    else if snap.products.None? || |snap.products.value| == 0 then Err("No products have been selected")
    else
      var v := Assembled(snap, env, paid, eftposReceipt);
      var v := if env.restaurant.value.autoCompleteOrders
               then v.(status := Completed, completedAt := Value(env.placedAt), completedAtUtc := Value(env.placedAtUtc), paid := true)
               else v;
      var v := if snap.tableNumber.None? || snap.tableNumber == Some("") then v.(table := Absent) else v;
      var v := if snap.notes == "" then v.(notes := Absent) else v;
      Ok(v.(products := StripAll(v.products)))
  }

  /** The checks fail in a fixed order: user, order type, restaurant, products. */
  lemma OrderChecksInOrder(snap: CartSnapshot, env: OrderEnv, paid: bool, eftposReceipt: Option<string>)
    ensures OrderRequest(snap, env, paid, eftposReceipt).Ok? <==>
              env.user.Some? && snap.orderType.Some? && env.restaurant.Some? &&
              snap.products.Some? && |snap.products.value| > 0
    ensures env.user.None? ==> OrderRequest(snap, env, paid, eftposReceipt) == Err("Invalid user")
    ensures env.user.Some? && snap.orderType.None? ==>
              OrderRequest(snap, env, paid, eftposReceipt) == Err("Invalid order type")
    ensures env.user.Some? && snap.orderType.Some? && env.restaurant.None? ==>
              OrderRequest(snap, env, paid, eftposReceipt) == Err("Invalid restaurant")
  {
  }

  /** What a well-formed request carries: the cart's figures, an empty table or note
      dropped, every product stripped and otherwise intact, and the
      auto-complete override. */
  lemma OrderRequestContents(snap: CartSnapshot, env: OrderEnv, paid: bool, eftposReceipt: Option<string>)
    requires OrderRequest(snap, env, paid, eftposReceipt).Ok?
    ensures var o := OrderRequest(snap, env, paid, eftposReceipt).value;
            (o.table == Absent <==> snap.tableNumber.None? || snap.tableNumber == Some("")) &&
            (o.table != Absent ==> o.table == Value(snap.tableNumber.value)) &&
            (o.notes == Absent <==> snap.notes == "") &&
            (o.notes != Absent ==> o.notes == Value(snap.notes))
    ensures var o := OrderRequest(snap, env, paid, eftposReceipt).value;
            |o.products| == |snap.products.value| &&
            forall i :: 0 <= i < |o.products| ==>
              Clean(o.products[i]) && Restore(o.products[i]) == snap.products.value[i].(notes :=
                if snap.products.value[i].notes == Some("") then None else snap.products.value[i].notes)
    ensures var o := OrderRequest(snap, env, paid, eftposReceipt).value;
            (o.status == Completed <==> env.restaurant.value.autoCompleteOrders) &&
            (o.completedAt.Value? <==> env.restaurant.value.autoCompleteOrders) &&
            o.paid == (paid || env.restaurant.value.autoCompleteOrders)
    ensures var o := OrderRequest(snap, env, paid, eftposReceipt).value;
            o.total == snap.total && o.subTotal == snap.subTotal && o.number == env.orderNumber &&
            (o.discount.Value? <==> snap.promotion.Some?) && o.eftposReceipt == FieldOf(eftposReceipt)
  {
    RequestFields(snap, env, paid, eftposReceipt);
    StrippedLines(snap.products.value);
  }

  /** Every stripped copy of a line is clean and gives the line back, up to an empty note. */
  lemma StrippedLines(ps: seq<CartProduct>)
    ensures var r := StripAll(CopyAll(ps));
            |r| == |ps| &&
            forall i :: 0 <= i < |ps| ==>
              Clean(r[i]) && Restore(r[i]) == ps[i].(notes := if ps[i].notes == Some("") then None else ps[i].notes)
  {
    var r := StripAll(CopyAll(ps));
    forall i | 0 <= i < |ps|
      ensures Clean(r[i]) && Restore(r[i]) == ps[i].(notes := if ps[i].notes == Some("") then None else ps[i].notes)
    {
      StripLosesOnlyEmptiness(ps[i]);
    }
  }

  /** The request field by field: the assembled values with the overrides and deletions applied. */
  lemma RequestFields(snap: CartSnapshot, env: OrderEnv, paid: bool, eftposReceipt: Option<string>)
    requires OrderRequest(snap, env, paid, eftposReceipt).Ok?
    ensures var o := OrderRequest(snap, env, paid, eftposReceipt).value;
            var auto := env.restaurant.value.autoCompleteOrders;
            o.products == StripAll(CopyAll(snap.products.value)) &&
            o.table == (if snap.tableNumber.None? || snap.tableNumber == Some("") then Absent else FieldOf(snap.tableNumber)) &&
            o.notes == (if snap.notes == "" then Absent else Value(snap.notes)) &&
            o.status == (if auto then Completed else New) &&
            o.completedAt == (if auto then Value(env.placedAt) else Absent) &&
            o.paid == (paid || auto) &&
            o.total == snap.total && o.subTotal == snap.subTotal && o.number == env.orderNumber &&
            o.discount == (if snap.promotion.Some? then Value(snap.promotion.value.discountedAmount) else Absent) &&
            o.eftposReceipt == FieldOf(eftposReceipt)
  {
    var a := Assembled(snap, env, paid, eftposReceipt);
    var v1 := if env.restaurant.value.autoCompleteOrders
              then a.(status := Completed, completedAt := Value(env.placedAt), completedAtUtc := Value(env.placedAtUtc), paid := true)
              else a;
    var v2 := if snap.tableNumber.None? || snap.tableNumber == Some("") then v1.(table := Absent) else v1;
    var v3 := if snap.notes == "" then v2.(notes := Absent) else v2;
    assert OrderRequest(snap, env, paid, eftposReceipt).value == v3.(products := StripAll(v3.products));
  }

  /** With the cart's subTotal in step with its promotion, the request's subTotal
      and discount add up to its total. */
  lemma OrderAmountsAddUp(snap: CartSnapshot, env: OrderEnv, paid: bool, eftposReceipt: Option<string>)
    requires OrderRequest(snap, env, paid, eftposReceipt).Ok?
    requires snap.subTotal == SubTotalOf(snap.total, snap.promotion)
    ensures var o := OrderRequest(snap, env, paid, eftposReceipt).value;
            o.subTotal + (if o.discount.Value? then o.discount.value else 0.0) == o.total as real
  {
    var o := OrderRequest(snap, env, paid, eftposReceipt).value;
    RequestAmounts(snap, env, paid, eftposReceipt);
    if snap.promotion.Some? {
      assert o.discount.value == snap.promotion.value.discountedAmount;
    }
  }

  /** The request's amounts are the cart's: none of the later edits touch them. */
  lemma RequestAmounts(snap: CartSnapshot, env: OrderEnv, paid: bool, eftposReceipt: Option<string>)
    requires OrderRequest(snap, env, paid, eftposReceipt).Ok?
    ensures var o := OrderRequest(snap, env, paid, eftposReceipt).value;
            o.subTotal == snap.subTotal && o.total == snap.total &&
            o.discount == (if snap.promotion.Some? then Value(snap.promotion.value.discountedAmount) else Absent)
  {
    var a := Assembled(snap, env, paid, eftposReceipt);
    var o := OrderRequest(snap, env, paid, eftposReceipt).value;
    assert o.subTotal == a.subTotal && o.total == a.total && o.discount == a.discount;
  }

  /** createOrder as a whole: the checks, then the mutation. */
  function CreateOrderResult(snap: CartSnapshot, env: OrderEnv, paid: bool, eftposReceipt: Option<string>): Result<OrderInput, Thrown> {
    match OrderRequest(snap, env, paid, eftposReceipt)
    case Err(m) => Err(ThrownString(m))
    case Ok(o) => if env.mutationError.Some? then Err(env.mutationError.value) else Ok(o)
  }

  /** createOrder (checkout.tsx:324-443): builds the variable bag, then deletes keys from it in place. */
  method CreateOrder(snap: CartSnapshot, env: OrderEnv, paid: bool, eftposReceipt: Option<string>)
    returns (r: Result<OrderInput, Thrown>)
    ensures r == CreateOrderResult(snap, env, paid, eftposReceipt)
  {
    if env.user.None? { return Err(ThrownString("Invalid user")); }
    if snap.orderType.None? { return Err(ThrownString("Invalid order type")); }
    if env.restaurant.None? { return Err(ThrownString("Invalid restaurant")); }
    if snap.products.None? || |snap.products.value| == 0 {
      return Err(ThrownString("No products have been selected"));
    }
    var variables := Assembled(snap, env, paid, eftposReceipt);
    if env.restaurant.value.autoCompleteOrders {
      variables := variables.(status := Completed);
      variables := variables.(completedAt := Value(env.placedAt), completedAtUtc := Value(env.placedAtUtc));
      variables := variables.(paid := true);
    }
    if snap.tableNumber.None? || snap.tableNumber == Some("") {
      variables := variables.(table := Absent);
    }
    if snap.notes == "" {
      variables := variables.(notes := Absent);
    }
    var products := StripProducts(variables.products);
    variables := variables.(products := products);
    if env.mutationError.Some? {
      return Err(env.mutationError.value);
    }
    return Ok(variables);
  }

  /** The `forEach` of createOrder that deletes keys from each product in place. */
  method StripProducts(original: seq<OrderProduct>) returns (products: seq<OrderProduct>)
    ensures products == StripAll(original)
  {
    products := original;
    var i := 0;
    while i < |products|
      invariant 0 <= i <= |products| == |original|
      invariant forall j :: 0 <= j < i ==> products[j] == Strip(original[j])
      invariant forall j :: i <= j < |products| ==> products[j] == original[j]
    {
      var product := products[i];
      if product.modifierGroups.Value? && |product.modifierGroups.value| == 0 {
        product := product.(modifierGroups := Absent);
      }
      if product.image == Null {
        product := product.(image := Absent);
      }
      if product.notes == Null || product.notes == Value("") {
        product := product.(notes := Absent);
      }
      if product.category.image == Null {
        product := product.(category := product.category.(image := Absent));
      }
      products := products[i := product];
      i := i + 1;
    }
  }

  /** `e.message` of the value createOrder throws; a bare string has no message. */
  function MessageOf(e: Thrown): (m: Option<string>)
    ensures m.Some? <==> e.ThrownError?
  {
    match e
    case ThrownString(_) => None
    case ThrownError(message) => Some(message)
  }

  // ---------------------------------------------------------------------------
  // The page state and what each handler does to it

  /** Every pending countdown tick still has 1 to 10 seconds to go. */
  predicate ValidTimers(timers: seq<int>) {
    forall j :: 0 <= j < |timers| ==> 1 <= timers[j] <= 10
  }

  /** The page's fields. `timers` holds the `i` of every pending countdown tick,
      `placedOrders` the orders the mutation stored, `history` the routes pushed. */
  datatype ScreenState = ScreenState(
    showPaymentModal: bool, paymentOutcome: Option<CheckoutOutcome>, errorMessage: Option<string>,
    delayedOrderNumber: Option<string>, redirectTimeLeft: int, createOrderError: Option<string>,
    timers: seq<int>, placedOrders: seq<OrderInput>, history: seq<Route>, cartClears: nat)

  /** The reset both confirm/retry and closing the modal perform. */
  function AfterReset(s: ScreenState): (t: ScreenState)
    ensures t.paymentOutcome.None? && t.errorMessage.None? && t.delayedOrderNumber.None? && t.redirectTimeLeft == 10
    ensures t.(paymentOutcome := s.paymentOutcome, errorMessage := s.errorMessage,
               delayedOrderNumber := s.delayedOrderNumber, redirectTimeLeft := s.redirectTimeLeft) == s
  {
    s.(paymentOutcome := None, errorMessage := None, delayedOrderNumber := None, redirectTimeLeft := 10)
  }

  /** onSubmitOrder followed by the caller's `catch`, which stores the rethrown `e.message`. */
  function AfterSubmit(s: ScreenState, snap: CartSnapshot, env: OrderEnv, paid: bool, eftposReceipt: Option<string>): (t: ScreenState)
    ensures t.paymentOutcome == s.paymentOutcome && t.errorMessage == s.errorMessage
    ensures t.delayedOrderNumber == Some(env.orderNumber)
    ensures CreateOrderResult(snap, env, paid, eftposReceipt).Ok? ==>
              t.timers == s.timers + [10] &&
              t.placedOrders == s.placedOrders + [CreateOrderResult(snap, env, paid, eftposReceipt).value] &&
              t.createOrderError == s.createOrderError
    ensures CreateOrderResult(snap, env, paid, eftposReceipt).Err? ==>
              t.timers == s.timers && t.placedOrders == s.placedOrders &&
              t.createOrderError == MessageOf(CreateOrderResult(snap, env, paid, eftposReceipt).error)
    ensures OrderRequest(snap, env, paid, eftposReceipt).Err? ==> t.createOrderError.None?
  {
    var s := s.(delayedOrderNumber := Some(env.orderNumber));
    match CreateOrderResult(snap, env, paid, eftposReceipt)
    case Err(e) => s.(createOrderError := MessageOf(e))
    case Ok(o) => s.(placedOrders := s.placedOrders + [o], timers := s.timers + [10])
  }

  function ApplyVerdict(s: ScreenState, v: Verdict): ScreenState {
    s.(paymentOutcome := if v.outcome.Some? then v.outcome else s.paymentOutcome,
       errorMessage := if v.message.Some? then v.message else s.errorMessage)
  }

  function AfterSmartpay(s: ScreenState, snap: CartSnapshot, env: OrderEnv, run: SmartpayRun): ScreenState {
    var s := if run.delayCallbacks > 0 then s.(paymentOutcome := Some(Delay)) else s;
    match run.result
    case Threw(e) => s.(errorMessage := Some(e))
    case Returned(o) =>
      var s := ApplyVerdict(s, SmartpayVerdict(o));
      if o == SmartpayOutcome.Accepted then AfterSubmit(s, snap, env, true, None) else s
  }

  function AfterWindcave(s: ScreenState, snap: CartSnapshot, env: OrderEnv, call: TerminalCall<WindcaveResult>): ScreenState {
    match call
    case Threw(e) => s.(errorMessage := Some(e))
    case Returned(r) =>
      var s := ApplyVerdict(s, WindcaveVerdict(r.outcome));
      if r.outcome == WindcaveOutcome.Accepted then AfterSubmit(s, snap, env, true, r.eftposReceipt) else s
  }

  function AfterVerifone(s: ScreenState, snap: CartSnapshot, env: OrderEnv, call: TerminalCall<VerifoneResult>): ScreenState {
    match call
    case Threw(e) => s.(paymentOutcome := Some(Fail), errorMessage := Some(e))
    case Returned(r) =>
      var s := ApplyVerdict(s, VerifoneVerdict(r.outcome));
      if r.outcome == Approved then AfterSubmit(s, snap, env, true, r.eftposReceipt) else s
  }

  function AfterDispatch(s: ScreenState, eftposProvider: string, terminals: Terminals, snap: CartSnapshot, env: OrderEnv): ScreenState {
    match ProviderOf(eftposProvider)
    case None => s
    case Some(Smartpay) => AfterSmartpay(s, snap, env, terminals.smartpay)
    case Some(Verifone) => AfterVerifone(s, snap, env, terminals.verifone)
    case Some(Windcave) => AfterWindcave(s, snap, env, terminals.windcave)
  }

  function AfterRetry(s: ScreenState, eftposProvider: string, terminals: Terminals, snap: CartSnapshot, env: OrderEnv): ScreenState {
    AfterDispatch(AfterReset(s), eftposProvider, terminals, snap, env)
  }

  function AfterPayLater(s: ScreenState, snap: CartSnapshot, env: OrderEnv): ScreenState {
    var s := s.(showPaymentModal := true, paymentOutcome := Some(PayLater), errorMessage := None,
                delayedOrderNumber := None, redirectTimeLeft := 10);
    AfterSubmit(s, snap, env, false, None)
  }

  /** A thrown terminal error only sets the message on Smartpay and Windcave (the
      outcome stays as it was, or Delay), but also fails the attempt on Verifone. */
  lemma ThrownTerminalErrors(s: ScreenState, snap: CartSnapshot, env: OrderEnv, delays: nat, e: string)
    ensures AfterSmartpay(s, snap, env, SmartpayRun(delays, Threw(e))) ==
            s.(paymentOutcome := if delays > 0 then Some(Delay) else s.paymentOutcome, errorMessage := Some(e))
    ensures AfterWindcave(s, snap, env, Threw(e)) == s.(errorMessage := Some(e))
    ensures AfterVerifone(s, snap, env, Threw(e)) == s.(paymentOutcome := Some(Fail), errorMessage := Some(e))
  {
  }

  /** An order is placed only after an approved payment, and is then marked paid;
      every attempt that is not approved leaves the orders and the countdowns alone. */
  lemma OrdersFollowApproval(s: ScreenState, eftposProvider: string, terminals: Terminals, snap: CartSnapshot, env: OrderEnv)
    ensures var t := AfterRetry(s, eftposProvider, terminals, snap, env);
            t.placedOrders != s.placedOrders ==>
              t.paymentOutcome == Some(Success) && t.timers == s.timers + [10] &&
              t.placedOrders == s.placedOrders + [Last(t.placedOrders)] && Last(t.placedOrders).paid
    ensures var t := AfterRetry(s, eftposProvider, terminals, snap, env);
            t.paymentOutcome != Some(Success) ==> t.placedOrders == s.placedOrders && t.timers == s.timers
  {
    var r := AfterReset(s);
    var t := AfterRetry(s, eftposProvider, terminals, snap, env);
    match ProviderOf(eftposProvider)
    case None =>
    case Some(Smartpay) =>
      var run := terminals.smartpay;
      if run.result.Returned? && run.result.value == SmartpayOutcome.Accepted {
        PaidRequest(snap, env, None);
      }
    case Some(Verifone) =>
      if terminals.verifone.Returned? && terminals.verifone.value.outcome == Approved {
        PaidRequest(snap, env, terminals.verifone.value.eftposReceipt);
      }
    case Some(Windcave) =>
      if terminals.windcave.Returned? && terminals.windcave.value.outcome == WindcaveOutcome.Accepted {
        PaidRequest(snap, env, terminals.windcave.value.eftposReceipt);
      }
  }

  lemma PaidRequest(snap: CartSnapshot, env: OrderEnv, eftposReceipt: Option<string>)
    ensures CreateOrderResult(snap, env, true, eftposReceipt).Ok? ==> CreateOrderResult(snap, env, true, eftposReceipt).value.paid
  {
  }

  /** Retrying forgets the previous attempt: two states that differ only in the
      outcome, message, order number and countdown end the same. */
  lemma RetryForgetsPreviousAttempt(s: ScreenState, u: ScreenState, eftposProvider: string, terminals: Terminals,
                                    snap: CartSnapshot, env: OrderEnv)
    requires u == s.(paymentOutcome := u.paymentOutcome, errorMessage := u.errorMessage,
                     delayedOrderNumber := u.delayedOrderNumber, redirectTimeLeft := u.redirectTimeLeft)
    ensures AfterRetry(s, eftposProvider, terminals, snap, env) == AfterRetry(u, eftposProvider, terminals, snap, env)
  {
    assert AfterReset(s) == AfterReset(u);
  }

  /** Paying later submits an unpaid order (unless the restaurant auto-completes)
      and keeps the PayLater outcome whatever the submission does. */
  lemma PayLaterSubmitsUnpaid(s: ScreenState, snap: CartSnapshot, env: OrderEnv)
    ensures AfterPayLater(s, snap, env).paymentOutcome == Some(PayLater)
    ensures var t := AfterPayLater(s, snap, env);
            t.placedOrders != s.placedOrders ==>
              |t.placedOrders| == |s.placedOrders| + 1 &&
              Last(t.placedOrders).paid == env.restaurant.value.autoCompleteOrders
  {
    var t := AfterPayLater(s, snap, env);
    if t.placedOrders != s.placedOrders {
      OrderRequestContents(snap, env, false, None);
    }
  }

  // ---------------------------------------------------------------------------
  // The page

  class CheckoutPage {
    const cart: CartStore
    var showPaymentModal: bool
    var paymentOutcome: Option<CheckoutOutcome>
    var errorMessage: Option<string>
    var delayedOrderNumber: Option<string>
    var redirectTimeLeft: int
    var createOrderError: Option<string>
    var timers: seq<int>
    var placedOrders: seq<OrderInput>
    var history: seq<Route>
    var cartClears: nat

    function State(): ScreenState
      reads this
    {
      ScreenState(showPaymentModal, paymentOutcome, errorMessage, delayedOrderNumber, redirectTimeLeft,
                  createOrderError, timers, placedOrders, history, cartClears)
    }

    predicate TimersValid()
      reads this
    {
      ValidTimers(timers)
    }

    constructor (cart: CartStore)
      ensures this.cart == cart && TimersValid()
      ensures State() == ScreenState(false, None, None, None, 10, None, [], [], [], 0)
    {
      this.cart := cart;
      showPaymentModal, paymentOutcome, errorMessage, delayedOrderNumber := false, None, None, None;
      redirectTimeLeft, createOrderError := 10, None;
      timers, placedOrders, history, cartClears := [], [], [], 0;
    }

    /** onCancelOrder */
    method CancelOrder()
      modifies this, cart
      ensures cart.Initial() && cart.Valid()
      ensures State() == old(State()).(history := old(history) + [BeginOrder], cartClears := old(cartClears) + 1)
    {
      cart.ClearCart();
      cartClears := cartClears + 1;
      history := history + [BeginOrder];
    }

    /** onClosePaymentModal */
    method ClosePaymentModal()
      modifies this
      ensures State() == AfterReset(old(State())).(showPaymentModal := false)
    {
      paymentOutcome := None;
      errorMessage := None;
      delayedOrderNumber := None;
      redirectTimeLeft := 10;
      showPaymentModal := false;
    }

    /** onSubmitOrder, up to the point where it rethrows `e.message`. */
    method SubmitOrder(paid: bool, eftposReceipt: Option<string>, env: OrderEnv) returns (rethrown: Option<Option<string>>)
      modifies this
      ensures old(TimersValid()) ==> TimersValid()
      ensures rethrown.Some? <==> CreateOrderResult(Snapshot(cart), env, paid, eftposReceipt).Err?
      ensures AfterSubmit(old(State()), Snapshot(cart), env, paid, eftposReceipt) ==
              if rethrown.Some? then State().(createOrderError := rethrown.value) else State()
    {
      delayedOrderNumber := Some(env.orderNumber);
      var created := CreateOrder(Snapshot(cart), env, paid, eftposReceipt);
      if created.Err? {
        return Some(MessageOf(created.error));
      }
      placedOrders := placedOrders + [created.value];
      timers := timers + [10];
      rethrown := None;
    }

    /** `try { await onSubmitOrder(..) } catch (e) { setCreateOrderError(e) }` */
    method SubmitOrderAndReport(paid: bool, eftposReceipt: Option<string>, env: OrderEnv)
      modifies this
      ensures old(TimersValid()) ==> TimersValid()
      ensures State() == AfterSubmit(old(State()), Snapshot(cart), env, paid, eftposReceipt)
    {
      var rethrown := SubmitOrder(paid, eftposReceipt, env);
      if rethrown.Some? {
        createOrderError := rethrown.value;
      }
    }

    method ApplyTerminalVerdict(v: Verdict)
      modifies this
      ensures State() == ApplyVerdict(old(State()), v)
    {
      if v.outcome.Some? {
        paymentOutcome := v.outcome;
      }
      if v.message.Some? {
        errorMessage := v.message;
      }
    }

    /** doTransactionSmartpay: `delayedShown` lets the poller's delay callback show Delay once. */
    method DoTransactionSmartpay(run: SmartpayRun, env: OrderEnv) returns (charged: real, delaysShown: nat)
      modifies this
      ensures old(TimersValid()) ==> TimersValid()
      ensures charged == cart.subTotal
      ensures delaysShown == if run.delayCallbacks > 0 then 1 else 0
      ensures State() == AfterSmartpay(old(State()), Snapshot(cart), env, run)
    {
      var delayedShown := false;
      delaysShown := 0;
      charged := cart.subTotal;
      var k := 0;
      while k < run.delayCallbacks
        invariant 0 <= k <= run.delayCallbacks
        invariant delayedShown <==> k > 0
        invariant delaysShown == if k > 0 then 1 else 0
        invariant State() == if k > 0 then old(State()).(paymentOutcome := Some(Delay)) else old(State())
      {
        if !delayedShown {
          delayedShown := true;
          paymentOutcome := Some(Delay);
          delaysShown := delaysShown + 1;
        }
        k := k + 1;
      }
      match run.result
      case Threw(e) =>
        errorMessage := Some(e);
      case Returned(o) =>
        ApplyTerminalVerdict(SmartpayVerdict(o));
        if o == SmartpayOutcome.Accepted {
          SubmitOrderAndReport(true, None, env);
        }
    }

    method DoTransactionWindcave(call: TerminalCall<WindcaveResult>, env: OrderEnv) returns (charged: real)
      modifies this
      ensures old(TimersValid()) ==> TimersValid()
      ensures charged == cart.subTotal
      ensures State() == AfterWindcave(old(State()), Snapshot(cart), env, call)
    {
      charged := cart.subTotal;
      match call
      case Threw(e) =>
        errorMessage := Some(e);
      case Returned(r) =>
        ApplyTerminalVerdict(WindcaveVerdict(r.outcome));
        if r.outcome == WindcaveOutcome.Accepted {
          SubmitOrderAndReport(true, r.eftposReceipt, env);
        }
    }

    method DoTransactionVerifone(call: TerminalCall<VerifoneResult>, env: OrderEnv) returns (charged: real)
      modifies this
      ensures old(TimersValid()) ==> TimersValid()
      ensures charged == cart.subTotal
      ensures State() == AfterVerifone(old(State()), Snapshot(cart), env, call)
    {
      charged := cart.subTotal;
      match call
      case Threw(e) =>
        paymentOutcome := Some(Fail);
        errorMessage := Some(e);
      case Returned(r) =>
        ApplyTerminalVerdict(VerifoneVerdict(r.outcome));
        if r.outcome == Approved {
          SubmitOrderAndReport(true, r.eftposReceipt, env);
        }
    }

    /** doTransaction: exactly one terminal flow for a known provider, none otherwise;
        `charge` is the provider and amount sent to the terminal. */
    method DoTransaction(eftposProvider: string, terminals: Terminals, env: OrderEnv)
      returns (charge: Option<(Provider, real)>)
      modifies this
      ensures old(TimersValid()) ==> TimersValid()
      ensures charge.None? <==> ProviderOf(eftposProvider).None?
      ensures charge.Some? ==> charge.value == (ProviderOf(eftposProvider).value, cart.subTotal)
      ensures State() == AfterDispatch(old(State()), eftposProvider, terminals, Snapshot(cart), env)
    {
      if eftposProvider == "SMARTPAY" {
        var charged, _ := DoTransactionSmartpay(terminals.smartpay, env);
        charge := Some((Smartpay, charged));
      } else if eftposProvider == "VERIFONE" {
        var charged := DoTransactionVerifone(terminals.verifone, env);
        charge := Some((Verifone, charged));
      } else if eftposProvider == "WINDCAVE" {
        var charged := DoTransactionWindcave(terminals.windcave, env);
        charge := Some((Windcave, charged));
      } else {
        charge := None;
      }
    }

    /** onConfirmTotalOrRetryTransaction */
    method ConfirmTotalOrRetry(eftposProvider: string, terminals: Terminals, env: OrderEnv)
      returns (charge: Option<(Provider, real)>)
      modifies this
      ensures old(TimersValid()) ==> TimersValid()
      ensures charge.None? <==> ProviderOf(eftposProvider).None?
      ensures State() == AfterRetry(old(State()), eftposProvider, terminals, Snapshot(cart), env)
    {
      paymentOutcome := None;
      errorMessage := None;
      delayedOrderNumber := None;
      redirectTimeLeft := 10;
      charge := DoTransaction(eftposProvider, terminals, env);
    }

    /** onClickOrderButton */
    method ClickOrderButton(eftposProvider: string, terminals: Terminals, env: OrderEnv)
      returns (charge: Option<(Provider, real)>)
      modifies this
      ensures old(TimersValid()) ==> TimersValid()
      ensures State() == AfterRetry(old(State()).(showPaymentModal := true), eftposProvider, terminals, Snapshot(cart), env)
    {
      showPaymentModal := true;
      charge := ConfirmTotalOrRetry(eftposProvider, terminals, env);
    }

    /** onClickPayLater */
    method ClickPayLater(env: OrderEnv)
      modifies this
      ensures old(TimersValid()) ==> TimersValid()
      ensures State() == AfterPayLater(old(State()), Snapshot(cart), env)
    {
      OpenPayLater();
      SubmitOrderAndReport(false, None, env);
    }

    /** The state updates of onClickPayLater before the order is submitted. */
    method OpenPayLater()
      modifies this`showPaymentModal, this`paymentOutcome, this`errorMessage, this`delayedOrderNumber, this`redirectTimeLeft
      ensures State() == old(State()).(showPaymentModal := true, paymentOutcome := Some(PayLater), errorMessage := None,
                                       delayedOrderNumber := None, redirectTimeLeft := 10)
    {
      showPaymentModal, paymentOutcome, errorMessage, delayedOrderNumber, redirectTimeLeft :=
        true, Some(PayLater), None, None, 10;
    }

    /** One `setTimeout` callback of the countdown `k`: decrement, show, and at zero
        go back to the begin screen and clear the cart; otherwise schedule the next tick. */
    method Tick(k: nat)
      requires k < |timers| && TimersValid()
      modifies this, cart
      ensures TimersValid()
      ensures redirectTimeLeft == old(timers[k]) - 1
      ensures old(timers[k]) == 1 ==>
                State() == old(State()).(redirectTimeLeft := 0, timers := old(timers[..k] + timers[k + 1..]),
                                         history := old(history) + [BeginOrder], cartClears := old(cartClears) + 1)
      ensures old(timers[k]) == 1 ==> cart.Initial() && cart.Valid()
      ensures old(timers[k]) > 1 ==>
                State() == old(State()).(redirectTimeLeft := old(timers[k]) - 1, timers := old(timers)[k := old(timers[k]) - 1])
      ensures old(timers[k]) > 1 ==> unchanged(cart)
    {
      var i := timers[k];
      i := i - 1;
      redirectTimeLeft := i;
      if i == 0 {
        history := history + [BeginOrder];
        cart.ClearCart();
        cartClears := cartClears + 1;
      }
      if i > 0 {
        timers := timers[k := i];
      } else {
        timers := timers[..k] + timers[k + 1..];
      }
    }

    /** Lets the countdown `k` run out: it ticks as many times as it had seconds
        left, then navigates and clears the cart exactly once. */
    method RunCountdown(k: nat) returns (ticks: nat)
      requires k < |timers| && TimersValid()
      modifies this, cart
      ensures TimersValid()
      ensures ticks == old(timers[k])
      ensures State() == old(State()).(redirectTimeLeft := 0, timers := old(timers[..k] + timers[k + 1..]),
                                       history := old(history) + [BeginOrder], cartClears := old(cartClears) + 1)
      ensures cart.Initial() && cart.Valid()
    {
      ticks := 0;
      var start := timers[k];
      while ticks < start
        invariant 0 <= ticks <= start && TimersValid()
        invariant ticks < start ==> k < |timers| && timers == old(timers)[k := start - ticks]
        invariant 0 < ticks < start ==> State() == old(State()).(redirectTimeLeft := start - ticks, timers := timers)
        invariant ticks == 0 ==> State() == old(State())
        invariant ticks == start ==>
                    State() == old(State()).(redirectTimeLeft := 0, timers := old(timers[..k] + timers[k + 1..]),
                                             history := old(history) + [BeginOrder], cartClears := old(cartClears) + 1)
        invariant ticks == start ==> cart.Initial() && cart.Valid()
        decreases start - ticks
      {
        Tick(k);
        ticks := ticks + 1;
      }
    }
  }
}

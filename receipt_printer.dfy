/** The print bookkeeping of src/context/receiptPrinter-context.tsx: the queue of
    receipts that failed to print (kept in local storage), the retry pass over it,
    the polling of new orders with its "last fetched" watermark, the choice of
    which new orders each printer prints, the label jobs of `printLabel` and the
    classification of the label server's responses. The Electron bridge, the
    label server and the order query are outside the model: their answers are
    inputs. */
module ReceiptPrinter {
  import opened Wrappers
  import opened Promotions
  import Text

  // ---------------------------------------------------------------------------
  // The failed-print queue

  datatype OrderReceipt = OrderReceipt(orderId: Id, number: string)

  datatype PrintError = PrintError(message: Option<string>)

  datatype FailedPrint = FailedPrint(error: string, order: OrderReceipt)

  /** What the receipt-printing bridge answers: printed, an error result, or the call throws. */
  datatype PrintAnswer = Printed | PrintFailed(error: PrintError) | InvokeThrew

  /** The `error` text storeFailedPrint keeps: the error's message, or "". */
  function ErrorText(e: PrintError): (t: string)
    ensures t == "" || e.message == Some(t)
  {
    if e.message.Some? && e.message.value != "" then e.message.value else ""
  }

  /** A missing queue reads as empty. */
  function Stored(queue: Option<seq<FailedPrint>>): seq<FailedPrint> {
    if queue.Some? then queue.value else []
  }

  /** The queue without the entries of one order, in their original order. */
  function WithoutOrder(q: seq<FailedPrint>, orderId: Id): (r: seq<FailedPrint>)
    ensures |r| <= |q|
    ensures forall i :: 0 <= i < |r| ==> r[i].order.orderId != orderId
  {
    if q == [] then []
    else WithoutOrder(q[..|q| - 1], orderId) + (if Last(q).order.orderId != orderId then [Last(q)] else [])
  }

  lemma {:induction false} WithoutOrderConcat(a: seq<FailedPrint>, b: seq<FailedPrint>, orderId: Id)
    ensures WithoutOrder(a + b, orderId) == WithoutOrder(a, orderId) + WithoutOrder(b, orderId)
    decreases |b|
  {
    if b == [] {
      assert a + b == a;
    } else {
      assert (a + b)[..|a + b| - 1] == a + b[..|b| - 1];
      assert Last(a + b) == Last(b);
      WithoutOrderConcat(a, b[..|b| - 1], orderId);
    }
  }

  /** An entry survives the filter iff it was queued and belongs to another order. */
  lemma {:induction false} WithoutOrderMembership(q: seq<FailedPrint>, orderId: Id, x: FailedPrint)
    ensures x in WithoutOrder(q, orderId) <==> x in q && x.order.orderId != orderId
  {
    if q != [] {
      WithoutOrderMembership(q[..|q| - 1], orderId, x);
      assert q == q[..|q| - 1] + [Last(q)];
    }
  }

  /** Entries of other orders are kept; a queue without the order is left as it is. */
  lemma {:induction false} WithoutOrderKeepsOthers(q: seq<FailedPrint>, orderId: Id)
    requires forall i :: 0 <= i < |q| ==> q[i].order.orderId != orderId
    ensures WithoutOrder(q, orderId) == q
  {
    if q != [] {
      WithoutOrderKeepsOthers(q[..|q| - 1], orderId);
      assert q == q[..|q| - 1] + [Last(q)];
    }
  }

  /** printReceipt's dispatch on the answer (receiptPrinter-context.tsx:133-142). */
  function QueueAfterPrint(queue: Option<seq<FailedPrint>>, order: OrderReceipt, answer: PrintAnswer, isRetry: bool)
    : (r: Option<seq<FailedPrint>>)
    ensures answer.PrintFailed? && isRetry ==> r == queue
    ensures answer.PrintFailed? && !isRetry ==> r == Some(Stored(queue) + [FailedPrint(ErrorText(answer.error), order)])
    ensures answer.Printed? && !isRetry ==> r == queue
    ensures answer.Printed? && isRetry && queue.None? ==> r == queue
    ensures answer.Printed? && isRetry && queue.Some? ==> r == Some(WithoutOrder(queue.value, order.orderId))
    ensures answer.InvokeThrew? ==> r == queue
  {
    match answer
    case PrintFailed(e) => if isRetry then queue else Some(Stored(queue) + [FailedPrint(ErrorText(e), order)])
    case Printed => if isRetry && queue.Some? then Some(WithoutOrder(queue.value, order.orderId)) else queue
    case InvokeThrew => queue
  }

  /** A failed first attempt queues the receipt; a successful retry takes it out
      again and leaves the rest of the queue as it was. */
  lemma FailThenRetryRestoresQueue(q: seq<FailedPrint>, order: OrderReceipt, e: PrintError)
    requires forall i :: 0 <= i < |q| ==> q[i].order.orderId != order.orderId
    ensures QueueAfterPrint(QueueAfterPrint(Some(q), order, PrintFailed(e), false), order, Printed, true) == Some(q)
  {
    var entry := FailedPrint(ErrorText(e), order);
    assert QueueAfterPrint(Some(q), order, PrintFailed(e), false) == Some(q + [entry]);
    WithoutOrderConcat(q, [entry], order.orderId);
    WithoutOrderKeepsOthers(q, order.orderId);
    assert [entry][..0] == [];
    assert WithoutOrder([entry], order.orderId) == WithoutOrder([], order.orderId) + [];
    assert WithoutOrder(q + [entry], order.orderId) == q + [] == q;
  }

  /** The queue after printing `orders[..n]` one after the other, the k-th getting `answer(k)`. */
  function QueueAfterPrints(queue: Option<seq<FailedPrint>>, orders: seq<OrderReceipt>, answer: nat -> PrintAnswer,
                            isRetry: bool, n: nat): Option<seq<FailedPrint>>
    requires n <= |orders|
  {
    if n == 0 then queue
    else QueueAfterPrint(QueueAfterPrints(queue, orders, answer, isRetry, n - 1), orders[n - 1], answer(n - 1), isRetry)
  }

  /** Whether one of the first `n` retries printed an order with this id. */
  predicate PrintedAmong(orderId: Id, orders: seq<OrderReceipt>, answer: nat -> PrintAnswer, n: nat)
    requires n <= |orders|
  {
    exists k :: 0 <= k < n && answer(k).Printed? && orders[k].orderId == orderId
  }

  /** Retrying keeps exactly the queued entries none of whose order's retries printed. */
  lemma {:induction false} RetriesRemoveExactlyThePrinted(q: seq<FailedPrint>, orders: seq<OrderReceipt>,
                                                          answer: nat -> PrintAnswer, n: nat, x: FailedPrint)
    requires n <= |orders|
    ensures QueueAfterPrints(Some(q), orders, answer, true, n).Some?
    ensures x in QueueAfterPrints(Some(q), orders, answer, true, n).value <==>
              x in q && !PrintedAmong(x.order.orderId, orders, answer, n)
  {
    if n > 0 {
      RetriesRemoveExactlyThePrinted(q, orders, answer, n - 1, x);
      var before := QueueAfterPrints(Some(q), orders, answer, true, n - 1).value;
      if answer(n - 1).Printed? {
        WithoutOrderMembership(before, orders[n - 1].orderId, x);
      }
      if PrintedAmong(x.order.orderId, orders, answer, n - 1) {
        var k :| 0 <= k < n - 1 && answer(k).Printed? && orders[k].orderId == x.order.orderId;
        assert 0 <= k < n;
      }
      if PrintedAmong(x.order.orderId, orders, answer, n) && !(answer(n - 1).Printed? && orders[n - 1].orderId == x.order.orderId) {
        var k :| 0 <= k < n && answer(k).Printed? && orders[k].orderId == x.order.orderId;
        assert k < n - 1;
      }
    }
  }

  function OrdersOf(q: seq<FailedPrint>): (r: seq<OrderReceipt>)
    ensures |r| == |q| && forall i :: 0 <= i < |q| ==> r[i] == q[i].order
  {
    seq(|q|, i requires 0 <= i < |q| => q[i].order)
  }

  // ---------------------------------------------------------------------------
  // New orders

  datatype Printer = Printer(address: string, printOnlineOrderReceipts: bool, printAllOrderReceipts: bool)

  datatype NewOrder = NewOrder(id: Id, number: string, registerId: Id, onlineOrder: bool)

  predicate Enabled(p: Printer) {
    p.printOnlineOrderReceipts || p.printAllOrderReceipts
  }

  /** What one printer's pass prints, and whether the pass returned from the whole function. */
  function PrinterPass(p: Printer, orders: seq<NewOrder>, registerId: Id, hasProducts: (Printer, NewOrder) -> bool)
    : (r: (seq<NewOrder>, bool))
    ensures forall o :: o in r.0 ==>
              o in orders && o.registerId != registerId && (p.printOnlineOrderReceipts ==> o.onlineOrder) && hasProducts(p, o)
    ensures (exists j :: 0 <= j < |orders| && orders[j].registerId == registerId) ==> r.1
    decreases |orders|
  {
    if orders == [] then ([], false)
    else if registerId == orders[0].registerId then ([], true)
    else if p.printOnlineOrderReceipts && !orders[0].onlineOrder then ([], true)
    else
      var rest := PrinterPass(p, orders[1..], registerId, hasProducts);
      assert forall j :: 1 <= j < |orders| ==> orders[j] == orders[1..][j - 1];
      ((if hasProducts(p, orders[0]) then [orders[0]] else []) + rest.0, rest.1)
  }

  function Pairs(p: Printer, orders: seq<NewOrder>): (r: seq<(Printer, NewOrder)>)
    ensures |r| == |orders| && forall i :: 0 <= i < |orders| ==> r[i] == (p, orders[i])
  {
    seq(|orders|, i requires 0 <= i < |orders| => (p, orders[i]))
  }

  /** printNewOrderReceipts (receiptPrinter-context.tsx:333-390): the receipts it
      sends, printer by printer; any early `return` ends the whole function. */
  function NewOrderPrints(printers: seq<Printer>, orders: seq<NewOrder>, registerId: Id,
                          hasProducts: (Printer, NewOrder) -> bool): seq<(Printer, NewOrder)>
    decreases |printers|
  {
    if printers == [] then []
    else if !Enabled(printers[0]) then []
    else
      var pass := PrinterPass(printers[0], orders, registerId, hasProducts);
      Pairs(printers[0], pass.0) + (if pass.1 then [] else NewOrderPrints(printers[1..], orders, registerId, hasProducts))
  }

  /** Every receipt sent goes to a printer with a receipt flag, for a fetched order
      of another register that has products for it, and an online-only printer
      gets online orders only. */
  lemma {:induction false} NewOrderPrintsAreAllowed(printers: seq<Printer>, orders: seq<NewOrder>, registerId: Id,
                                                    hasProducts: (Printer, NewOrder) -> bool)
    ensures forall x :: x in NewOrderPrints(printers, orders, registerId, hasProducts) ==>
              x.0 in printers && Enabled(x.0) && x.1 in orders && x.1.registerId != registerId &&
              (x.0.printOnlineOrderReceipts ==> x.1.onlineOrder) && hasProducts(x.0, x.1)
    decreases |printers|
  {
    if printers != [] && Enabled(printers[0]) {
      var pass := PrinterPass(printers[0], orders, registerId, hasProducts);
      if !pass.1 {
        NewOrderPrintsAreAllowed(printers[1..], orders, registerId, hasProducts);
        assert forall y :: y in printers[1..] ==> y in printers;
      }
    }
  }

  /** A printer with neither receipt flag ends printing for itself and every later printer. */
  lemma {:induction false} DisabledPrinterStopsLaterPrinters(printers: seq<Printer>, orders: seq<NewOrder>, registerId: Id,
                                                             hasProducts: (Printer, NewOrder) -> bool, i: nat)
    requires i < |printers| && !Enabled(printers[i])
    ensures forall x :: x in NewOrderPrints(printers, orders, registerId, hasProducts) ==> x.0 in printers[..i]
    decreases |printers|
  {
    if i > 0 && Enabled(printers[0]) {
      var pass := PrinterPass(printers[0], orders, registerId, hasProducts);
      if !pass.1 {
        DisabledPrinterStopsLaterPrinters(printers[1..], orders, registerId, hasProducts, i - 1);
        assert forall y :: y in printers[1..][..i - 1] ==> y in printers[..i];
      }
    }
  }

  /** One order from this register among the fetched orders makes only the first printer print. */
  lemma OwnOrderStopsAfterFirstPrinter(printers: seq<Printer>, orders: seq<NewOrder>, registerId: Id,
                                       hasProducts: (Printer, NewOrder) -> bool, j: nat)
    requires j < |orders| && orders[j].registerId == registerId
    ensures forall x :: x in NewOrderPrints(printers, orders, registerId, hasProducts) ==> x.0 == printers[0]
  {
  }

  lemma NewOrderPrintsStep(printers: seq<Printer>, orders: seq<NewOrder>, registerId: Id,
                           hasProducts: (Printer, NewOrder) -> bool, i: nat)
    requires i < |printers| && Enabled(printers[i])
    ensures var pass := PrinterPass(printers[i], orders, registerId, hasProducts);
            NewOrderPrints(printers[i..], orders, registerId, hasProducts) ==
            Pairs(printers[i], pass.0) + (if pass.1 then [] else NewOrderPrints(printers[i + 1..], orders, registerId, hasProducts))
  {
    assert printers[i..][0] == printers[i];
    assert printers[i..][1..] == printers[i + 1..];
  }

  lemma NewOrderPrintsStop(printers: seq<Printer>, orders: seq<NewOrder>, registerId: Id,
                           hasProducts: (Printer, NewOrder) -> bool, i: nat)
    requires i < |printers| && !Enabled(printers[i])
    ensures NewOrderPrints(printers[i..], orders, registerId, hasProducts) == []
  {
    assert printers[i..][0] == printers[i];
  }

  /** One order of a printer's pass: what it adds, and whether the pass returns there. */
  lemma PrinterPassStep(p: Printer, orders: seq<NewOrder>, registerId: Id, hasProducts: (Printer, NewOrder) -> bool)
    requires orders != []
    ensures var o := orders[0];
            var pass := PrinterPass(p, orders, registerId, hasProducts);
            if registerId == o.registerId || (p.printOnlineOrderReceipts && !o.onlineOrder) then pass == ([], true)
            else
              var rest := PrinterPass(p, orders[1..], registerId, hasProducts);
              pass == ((if hasProducts(p, o) then [o] else []) + rest.0, rest.1)
  {
  }

  /** The inner loop of printNewOrderReceipts, for one printer. */
  method PrintForPrinter(printer: Printer, orders: seq<NewOrder>, registerId: Id,
                         hasProducts: (Printer, NewOrder) -> bool) returns (printed: seq<NewOrder>, stopped: bool)
    ensures (printed, stopped) == PrinterPass(printer, orders, registerId, hasProducts)
  {
    ghost var all := PrinterPass(printer, orders, registerId, hasProducts);
    printed := [];
    var j := 0;
    assert orders[0..] == orders;
    while j < |orders|
      invariant 0 <= j <= |orders|
      invariant printed + PrinterPass(printer, orders[j..], registerId, hasProducts).0 == all.0
      invariant PrinterPass(printer, orders[j..], registerId, hasProducts).1 == all.1
    {
      var order := orders[j];
      PrinterPassStep(printer, orders[j..], registerId, hasProducts);
      assert orders[j..][0] == order;
      if registerId == order.registerId || (printer.printOnlineOrderReceipts && !order.onlineOrder) {
        assert printed + [] == printed;
        return printed, true;
      }
      assert orders[j..][1..] == orders[j + 1..];
      ghost var rest := PrinterPass(printer, orders[j + 1..], registerId, hasProducts).0;
      if hasProducts(printer, order) {
        AppendAssociates(printed, [order], rest);
        printed := printed + [order];
      } else {
        assert [] + rest == rest;
      }
      j := j + 1;
    }
    assert orders[j..] == [];
    assert printed + [] == printed;
    stopped := false;
  }

  /** One turn of the loop over the printers: what printer `i` prints, and whether
      the function returns there. */
  method PrintAtPrinter(printers: seq<Printer>, i: nat, orders: seq<NewOrder>, registerId: Id,
                        hasProducts: (Printer, NewOrder) -> bool) returns (now: seq<(Printer, NewOrder)>, stop: bool)
    requires i < |printers|
    ensures stop ==> now == NewOrderPrints(printers[i..], orders, registerId, hasProducts)
    ensures !stop ==> now + NewOrderPrints(printers[i + 1..], orders, registerId, hasProducts) ==
                      NewOrderPrints(printers[i..], orders, registerId, hasProducts)
  {
    var printer := printers[i];
    if !printer.printOnlineOrderReceipts && !printer.printAllOrderReceipts {
      NewOrderPrintsStop(printers, orders, registerId, hasProducts, i);
      return [], true;
    }
    var printed, stopped := PrintForPrinter(printer, orders, registerId, hasProducts);
    NewOrderPrintsStep(printers, orders, registerId, hasProducts, i);
    now := Pairs(printer, printed);
    stop := stopped;
    if stop {
      assert now + [] == now;
    }
  }

  lemma AppendAssociates<T>(a: seq<T>, b: seq<T>, c: seq<T>)
    ensures a + (b + c) == (a + b) + c
  {
  }

  /** The loops of printNewOrderReceipts, including its early `return`. */
  method PrintNewOrderReceipts(printers: seq<Printer>, orders: seq<NewOrder>, registerId: Id,
                               hasProducts: (Printer, NewOrder) -> bool) returns (sent: seq<(Printer, NewOrder)>)
    ensures sent == NewOrderPrints(printers, orders, registerId, hasProducts)
  {
    ghost var all := NewOrderPrints(printers, orders, registerId, hasProducts);
    sent := [];
    var i := 0;
    assert printers[0..] == printers;
    while i < |printers|
      invariant 0 <= i <= |printers|
      invariant sent + NewOrderPrints(printers[i..], orders, registerId, hasProducts) == all
    {
      var now, stop := PrintAtPrinter(printers, i, orders, registerId, hasProducts);
      if stop {
        return sent + now;
      }
      AppendAssociates(sent, now, NewOrderPrints(printers[i + 1..], orders, registerId, hasProducts));
      sent := sent + now;
      i := i + 1;
    }
    assert printers[i..] == [];
    assert sent + [] == sent;
  }

  // ---------------------------------------------------------------------------
  // Label jobs

  datatype LabelGroup = LabelGroup(name: string, modifiers: seq<string>)

  datatype LabelProduct = LabelProduct(name: string, quantity: int, modifierGroups: seq<LabelGroup>)

  datatype LabelOrder = LabelOrder(number: string, placedAt: string, products: seq<LabelProduct>)

  /** One function of the label server's payload; x is always 0 and the font Arial. */
  datatype Command = ClearBuffer | SetWidth(width: int) | DrawText(text: string, y: int, size: int) | PrintBuffer

  /** The payload's `functions` object as a token list: `"func<index>":{...}` members and separating commas. */
  datatype Piece = Entry(index: nat, command: Command) | Comma

  /** Members and commas alternate, starting and ending with a member: a valid member list. */
  predicate WellFormed(ps: seq<Piece>) {
    |ps| % 2 == 1 && forall i :: 0 <= i < |ps| ==> (ps[i].Comma? <==> i % 2 == 1)
  }

  /** Names separated by ", ". */
  function Join(names: seq<string>): string {
    if names == [] then ""
    else if |names| == 1 then names[0]
    else Join(names[..|names| - 1]) + ", " + Last(names)
  }

  lemma {:induction false} JoinSplit(a: seq<string>, b: seq<string>)
    requires a != [] && b != []
    ensures Join(a + b) == Join(a) + ", " + Join(b)
    decreases |b|
  {
    assert (a + b)[..|a + b| - 1] == a + b[..|b| - 1];
    assert Last(a + b) == Last(b);
    if |b| > 1 {
      JoinSplit(a, b[..|b| - 1]);
    } else {
      assert a + b[..|b| - 1] == a;
    }
  }

  /** A group's lines: its name and its first two modifiers, then any others on a second line. */
  function GroupLines(g: LabelGroup): (lines: seq<string>)
    ensures 1 <= |lines| <= 2 && (|lines| == 2 <==> |g.modifiers| > 2)
  {
    var n := |g.modifiers|;
    [g.name + ": " + Join(g.modifiers[..if n < 2 then n else 2])] + (if n > 2 then [Join(g.modifiers[2..])] else [])
  }

  /** Read together, a group's lines list every modifier once, in order. */
  lemma GroupLinesListEveryModifier(g: LabelGroup)
    ensures |g.modifiers| <= 2 ==> GroupLines(g) == [g.name + ": " + Join(g.modifiers)]
    ensures |g.modifiers| > 2 ==> GroupLines(g)[0] + ", " + GroupLines(g)[1] == g.name + ": " + Join(g.modifiers)
  {
    if |g.modifiers| > 2 {
      JoinSplit(g.modifiers[..2], g.modifiers[2..]);
      assert g.modifiers[..2] + g.modifiers[2..] == g.modifiers;
    } else {
      assert g.modifiers[..|g.modifiers|] == g.modifiers;
    }
  }

  function AllLines(groups: seq<LabelGroup>): seq<string> {
    if groups == [] then [] else AllLines(groups[..|groups| - 1]) + GroupLines(Last(groups))
  }

  /** The text commands for the modifier lines; the i-th is function `first + i`. */
  function LineCommands(lines: seq<string>, first: nat): (r: seq<Command>)
    ensures |r| == |lines|
  {
    seq(|lines|, i requires 0 <= i < |lines| => ModifierLine(lines[i], first + i))
  }

  /** Modifier lines are drawn in size 18, 30 dots apart, function 4 at y = 70. */
  function ModifierLine(line: string, index: nat): Command {
    DrawText(line, (index - 2) * 30 + 10, 18)
  }

  /** "Order: <number> (k/N)" */
  function Header(number: string, k: nat, total: int): string {
    "Order: " + number + " (" + Text.NatToString(k) + "/" + Text.IntToString(total) + ")"
  }

  /** The functions of the k-th of `total` labels, one per unit of `product`. */
  function LabelCommands(order: LabelOrder, product: LabelProduct, k: nat, total: int): (r: seq<Command>)
    ensures |r| == 6 + |AllLines(product.modifierGroups)|
  {
    [ClearBuffer, SetWidth(300), DrawText(Header(order.number, k, total), 0, 20), DrawText(product.name, 35, 20)]
    + LineCommands(AllLines(product.modifierGroups), 4)
    + [DrawText(order.placedAt, 200, 16), PrintBuffer]
  }

  /** The members numbered in order and separated by single commas. */
  function LabelPayload(order: LabelOrder, product: LabelProduct, k: nat, total: int): (r: seq<Piece>)
    ensures WellFormed(r)
    ensures var cmds := LabelCommands(order, product, k, total);
            |r| == 2 * |cmds| - 1 && forall i :: 0 <= i < |cmds| ==> r[2 * i] == Entry(i, cmds[i])
  {
    var cmds := LabelCommands(order, product, k, total);
    var r := seq(2 * |cmds| - 1, i requires 0 <= i < 2 * |cmds| - 1 => if i % 2 == 0 then Entry(i / 2, cmds[i / 2]) else Comma);
    assert forall i :: 0 <= i < |cmds| ==> r[2 * i] == Entry(i, cmds[i]) by {
      forall i | 0 <= i < |cmds|
        ensures r[2 * i] == Entry(i, cmds[i])
      {
        assert (2 * i) % 2 == 0 && (2 * i) / 2 == i;
      }
    }
    r
  }

  /** The members of one group as printLabel writes them: a comma before each
      line only when the group is not the first. */
  function GroupPiecesAsWritten(g: LabelGroup, notFirst: bool, index: nat): seq<Piece> {
    var lines := GroupLines(g);
    var sep := if notFirst then [Comma] else [];
    sep + [LineEntry(lines[0], index)] + (if |lines| == 2 then sep + [LineEntry(lines[1], index + 1)] else [])
  }

  /** The member drawing one modifier line as function `index`. */
  function LineEntry(line: string, index: nat): Piece {
    Entry(index, ModifierLine(line, index))
  }

  function ModifierPiecesAsWritten(groups: seq<LabelGroup>): seq<Piece> {
    if groups == [] then []
    else
      var prefix := groups[..|groups| - 1];
      ModifierPiecesAsWritten(prefix) + GroupPiecesAsWritten(Last(groups), |prefix| != 0, 4 + |AllLines(prefix)|)
  }

  /** The payload as printLabel assembles it (receiptPrinter-context.tsx:221-280):
      the fixed head, a comma, the modifier members, a comma, the fixed tail. */
  function LabelPayloadAsWritten(order: LabelOrder, product: LabelProduct, k: nat, total: int): seq<Piece> {
    Sandwich(LabelHead(order, product, k, total), ModifierPiecesAsWritten(product.modifierGroups),
             LabelTail(order, 4 + |AllLines(product.modifierGroups)|))
  }

  /** The payload's three parts joined by fixed commas. */
  function Sandwich(a: seq<Piece>, b: seq<Piece>, c: seq<Piece>): seq<Piece> {
    a + [Comma] + b + [Comma] + c
  }

  /** Clear, width, header and product name: functions 0 to 3. */
  function LabelHead(order: LabelOrder, product: LabelProduct, k: nat, total: int): (r: seq<Piece>)
    ensures WellFormed(r)
  {
    [Entry(0, ClearBuffer), Comma, Entry(1, SetWidth(300)), Comma,
     Entry(2, DrawText(Header(order.number, k, total), 0, 20)), Comma, Entry(3, DrawText(product.name, 35, 20))]
  }

  /** The order time and the print command, numbered from `n`. */
  function LabelTail(order: LabelOrder, n: nat): (r: seq<Piece>)
    ensures WellFormed(r)
  {
    [Entry(n, DrawText(order.placedAt, 200, 16)), Comma, Entry(n + 1, PrintBuffer)]
  }

  lemma WellFormedAppendPair(x: seq<Piece>, e: Piece)
    requires e.Entry?
    ensures WellFormed(x + [Comma, e]) <==> WellFormed(x)
  {
    var y := x + [Comma, e];
    if WellFormed(x) {
      forall i | 0 <= i < |y|
        ensures y[i].Comma? <==> i % 2 == 1
      {
        if i < |x| { assert y[i] == x[i]; }
      }
    }
    if WellFormed(y) {
      forall i | 0 <= i < |x|
        ensures x[i].Comma? <==> i % 2 == 1
      {
        assert y[i] == x[i];
      }
    }
  }

  /** A valid list, a comma, then the rest: valid iff the rest is. */
  lemma WellFormedJoinLeft(x: seq<Piece>, y: seq<Piece>)
    requires WellFormed(x)
    ensures WellFormed(x + [Comma] + y) <==> WellFormed(y)
  {
    var p := x + [Comma] + y;
    var s := |x| + 1;
    assert forall j :: 0 <= j < |y| ==> p[s + j] == y[j];
    if WellFormed(y) {
      forall i | 0 <= i < |p|
        ensures p[i].Comma? <==> i % 2 == 1
      {
        if i < |x| {
          assert p[i] == x[i];
        } else if i > |x| {
          assert p[i] == y[i - s];
        }
      }
    }
  }

  /** A list, a comma, then a valid list: valid iff the first list is. */
  lemma WellFormedJoinRight(x: seq<Piece>, y: seq<Piece>)
    requires WellFormed(y)
    ensures WellFormed(x + [Comma] + y) <==> WellFormed(x)
  {
    var p := x + [Comma] + y;
    var s := |x| + 1;
    assert forall j :: 0 <= j < |x| ==> p[j] == x[j];
    if WellFormed(x) {
      forall i | 0 <= i < |p|
        ensures p[i].Comma? <==> i % 2 == 1
      {
        if i < |x| {
          assert p[i] == x[i];
        } else if i > |x| {
          assert p[i] == y[i - s];
        }
      }
    }
  }

  lemma WellFormedSandwich(a: seq<Piece>, b: seq<Piece>, c: seq<Piece>)
    requires WellFormed(a) && WellFormed(c)
    ensures WellFormed(Sandwich(a, b, c)) <==> WellFormed(b)
  {
    assert a + [Comma] + b + [Comma] + c == a + [Comma] + (b + [Comma] + c);
    WellFormedJoinLeft(a, b + [Comma] + c);
    WellFormedJoinRight(b, c);
  }

  /** The first group's members are valid alone iff it fits on one line. */
  lemma FirstGroupPieces(g: LabelGroup, index: nat)
    ensures WellFormed(GroupPiecesAsWritten(g, false, index)) <==> |g.modifiers| <= 2
  {
    var lines := GroupLines(g);
    if |lines| == 2 {
      assert |GroupPiecesAsWritten(g, false, index)| == 2;
    } else {
      assert GroupPiecesAsWritten(g, false, index) == [LineEntry(lines[0], index)];
    }
  }

  /** A later group's members keep a valid list valid. */
  lemma LaterGroupPieces(x: seq<Piece>, g: LabelGroup, index: nat)
    ensures WellFormed(x + GroupPiecesAsWritten(g, true, index)) <==> WellFormed(x)
  {
    var lines := GroupLines(g);
    var e1 := LineEntry(lines[0], index);
    WellFormedAppendPair(x, e1);
    if |lines| == 2 {
      var e2 := LineEntry(lines[1], index + 1);
      assert x + GroupPiecesAsWritten(g, true, index) == x + [Comma, e1] + [Comma, e2];
      WellFormedAppendPair(x + [Comma, e1], e2);
    } else {
      assert x + GroupPiecesAsWritten(g, true, index) == x + [Comma, e1];
    }
  }

  /** A single group's members, as the first group. */
  lemma OneGroupPieces(groups: seq<LabelGroup>)
    requires |groups| == 1
    ensures ModifierPiecesAsWritten(groups) == GroupPiecesAsWritten(groups[0], false, 4)
  {
    var prefix := groups[..0];
    assert prefix == [];
    assert ModifierPiecesAsWritten(prefix) == [];
    assert AllLines(prefix) == [];
    assert Last(groups) == groups[0];
  }

  lemma {:induction false} ModifierPiecesWellFormed(groups: seq<LabelGroup>)
    requires groups != []
    ensures WellFormed(ModifierPiecesAsWritten(groups)) <==> |groups[0].modifiers| <= 2
  {
    if |groups| == 1 {
      OneGroupPieces(groups);
      FirstGroupPieces(groups[0], 4);
    } else {
      var prefix := groups[..|groups| - 1];
      ModifierPiecesWellFormed(prefix);
      assert prefix[0] == groups[0];
      LaterGroupPieces(ModifierPiecesAsWritten(prefix), Last(groups), 4 + |AllLines(prefix)|);
    }
  }

  /** The payload printLabel assembles is a valid member list exactly when the
      product has modifier groups and its first group has at most two modifiers:
      with no groups two commas meet, and the first group's second line follows
      its first line with no comma between them. */
  lemma LabelPayloadAsWrittenMalformed(order: LabelOrder, product: LabelProduct, k: nat, total: int)
    ensures WellFormed(LabelPayloadAsWritten(order, product, k, total)) <==>
              |product.modifierGroups| > 0 && |product.modifierGroups[0].modifiers| <= 2
  {
    LabelPayloadValidIffModifiers(order, product, k, total);
    if product.modifierGroups != [] {
      ModifierPiecesWellFormed(product.modifierGroups);
    }
  }

  /** The fixed head and tail are valid, so the payload is valid exactly when its modifier members are. */
  lemma LabelPayloadValidIffModifiers(order: LabelOrder, product: LabelProduct, k: nat, total: int)
    ensures WellFormed(LabelPayloadAsWritten(order, product, k, total)) == WellFormed(ModifierPiecesAsWritten(product.modifierGroups))
  {
    WellFormedSandwich(LabelHead(order, product, k, total), ModifierPiecesAsWritten(product.modifierGroups),
                       LabelTail(order, 4 + |AllLines(product.modifierGroups)|));
  }

  /** When the first group fits on one line, the modifier members printLabel writes
      are the modifier lines' members, numbered from 4 and separated by single commas. */
  lemma {:induction false} ModifierEntries(groups: seq<LabelGroup>)
    requires groups != [] && |groups[0].modifiers| <= 2
    ensures LinesAsMembers(ModifierPiecesAsWritten(groups), AllLines(groups))
  {
    if |groups| == 1 {
      var g := groups[0];
      OneGroupPieces(groups);
      assert groups[..0] == [];
      assert AllLines(groups) == GroupLines(g);
      assert ModifierPiecesAsWritten(groups) == [LineEntry(GroupLines(g)[0], 4)];
    } else {
      var prefix := groups[..|groups| - 1];
      assert prefix[0] == groups[0];
      ModifierEntries(prefix);
      var mp, lp := ModifierPiecesAsWritten(prefix), AllLines(prefix);
      LaterGroupEntries(mp, lp, Last(groups));
      assert ModifierPiecesAsWritten(groups) == mp + GroupPiecesAsWritten(Last(groups), true, 4 + |lp|);
      assert AllLines(groups) == lp + GroupLines(Last(groups));
    }
  }

  /** The members drawing `lines` as functions 4, 5, ..., with single commas between them. */
  predicate LinesAsMembers(m: seq<Piece>, lines: seq<string>) {
    |lines| >= 1 && |m| == 2 * |lines| - 1 &&
    forall j :: 0 <= j < |lines| ==> m[2 * j] == LineEntry(lines[j], 4 + j)
  }

  /** A later group's members extend such a list by that group's lines. */
  lemma LaterGroupEntries(mp: seq<Piece>, lp: seq<string>, g: LabelGroup)
    requires LinesAsMembers(mp, lp)
    ensures LinesAsMembers(mp + GroupPiecesAsWritten(g, true, 4 + |lp|), lp + GroupLines(g))
  {
    var gp := GroupPiecesAsWritten(g, true, 4 + |lp|);
    var m, lines := mp + gp, lp + GroupLines(g);
    forall j | 0 <= j < |lines|
      ensures m[2 * j] == LineEntry(lines[j], 4 + j)
    {
      if j < |lp| {
        assert m[2 * j] == mp[2 * j];
      } else if j == |lp| {
        assert m[2 * j] == gp[1];
      } else {
        assert m[2 * j] == gp[3];
      }
    }
  }

  /** Two valid member lists of one length with the same members are equal. */
  lemma SameMembers(a: seq<Piece>, b: seq<Piece>)
    requires WellFormed(a) && WellFormed(b) && |a| == |b|
    requires forall i :: 0 <= 2 * i < |a| ==> a[2 * i] == b[2 * i]
    ensures a == b
  {
    forall j | 0 <= j < |a|
      ensures a[j] == b[j]
    {
      if j % 2 == 0 {
        assert a[2 * (j / 2)] == b[2 * (j / 2)];
      }
    }
  }

  /** For a product whose first modifier group fits on one line, printLabel sends
      exactly the payload with single commas. */
  lemma AsWrittenIsCorrectedWhenValid(order: LabelOrder, product: LabelProduct, k: nat, total: int)
    requires product.modifierGroups != [] && |product.modifierGroups[0].modifiers| <= 2
    ensures LabelPayloadAsWritten(order, product, k, total) == LabelPayload(order, product, k, total)
  {
    var a, b := LabelPayloadAsWritten(order, product, k, total), LabelPayload(order, product, k, total);
    LabelPayloadAsWrittenMalformed(order, product, k, total);
    ModifierEntries(product.modifierGroups);
    forall i | 0 <= 2 * i < |a|
      ensures a[2 * i] == b[2 * i]
    {
      AsWrittenMember(order, product, k, total, i);
    }
    SameMembers(a, b);
  }

  /** The i-th member printLabel writes is function i of the label. */
  lemma AsWrittenMember(order: LabelOrder, product: LabelProduct, k: nat, total: int, i: nat)
    requires product.modifierGroups != [] && |product.modifierGroups[0].modifiers| <= 2
    requires 2 * i < |LabelPayloadAsWritten(order, product, k, total)|
    ensures var cmds := LabelCommands(order, product, k, total);
            i < |cmds| && LabelPayloadAsWritten(order, product, k, total)[2 * i] == Entry(i, cmds[i])
  {
    var groups := product.modifierGroups;
    var lines := AllLines(groups);
    var m := ModifierPiecesAsWritten(groups);
    ModifierEntries(groups);
    SandwichMember(LabelHead(order, product, k, total), m, LabelTail(order, 4 + |lines|), |lines|, i);
    if i < 4 {
      HeadCommands(order, product, k, total, i);
    } else if i < 4 + |lines| {
      assert m[2 * (i - 4)] == LineEntry(lines[i - 4], i);
      LineCommandAt(order, product, k, total, i);
    } else {
      TailCommands(order, product, k, total, i);
    }
  }

  lemma LineCommandAt(order: LabelOrder, product: LabelProduct, k: nat, total: int, i: nat)
    requires 4 <= i < 4 + |AllLines(product.modifierGroups)|
    ensures LabelCommands(order, product, k, total)[i] == ModifierLine(AllLines(product.modifierGroups)[i - 4], i)
  {
    var lines := AllLines(product.modifierGroups);
    var head := [ClearBuffer, SetWidth(300), DrawText(Header(order.number, k, total), 0, 20), DrawText(product.name, 35, 20)];
    var tail := [DrawText(order.placedAt, 200, 16), PrintBuffer];
    MiddleAt(head, LineCommands(lines, 4), tail, i);
  }

  lemma MiddleAt<T>(a: seq<T>, b: seq<T>, c: seq<T>, i: nat)
    requires |a| <= i < |a| + |b|
    ensures (a + b + c)[i] == b[i - |a|]
  {
  }

  lemma TailCommands(order: LabelOrder, product: LabelProduct, k: nat, total: int, i: nat)
    requires var n := |AllLines(product.modifierGroups)|; 4 + n <= i < 6 + n
    ensures var n := |AllLines(product.modifierGroups)|;
            LabelTail(order, 4 + n)[2 * (i - 4 - n)] == Entry(i, LabelCommands(order, product, k, total)[i])
  {
    var n := |AllLines(product.modifierGroups)|;
    assert LabelCommands(order, product, k, total)[i] == [DrawText(order.placedAt, 200, 16), PrintBuffer][i - 4 - n];
  }

  lemma HeadCommands(order: LabelOrder, product: LabelProduct, k: nat, total: int, i: nat)
    requires i < 4
    ensures LabelHead(order, product, k, total)[2 * i] == Entry(i, LabelCommands(order, product, k, total)[i])
  {
  }

  /** Where the i-th member of a head of four members, a middle of n and a tail lies. */
  lemma SandwichMember(a: seq<Piece>, b: seq<Piece>, c: seq<Piece>, n: nat, i: nat)
    requires |a| == 7 && |b| == 2 * n - 1 && 2 * i < |Sandwich(a, b, c)|
    ensures Sandwich(a, b, c)[2 * i] ==
              if i < 4 then a[2 * i] else if i < 4 + n then b[2 * (i - 4)] else c[2 * (i - 4 - n)]
  {
  }

  /** How many labels a product gets: its quantity, none when it is negative. */
  function Count(p: LabelProduct): nat {
    if p.quantity < 0 then 0 else p.quantity
  }

  /** The units printLabel prints a label for, product by product. */
  function Units(products: seq<LabelProduct>): seq<LabelProduct> {
    if products == [] then []
    else Units(products[..|products| - 1]) + seq(Count(Last(products)), _ => Last(products))
  }

  function QuantityTotal(products: seq<LabelProduct>): int {
    if products == [] then 0 else QuantityTotal(products[..|products| - 1]) + Last(products).quantity
  }

  lemma {:induction false} UnitsConcat(a: seq<LabelProduct>, b: seq<LabelProduct>)
    ensures Units(a + b) == Units(a) + Units(b)
    decreases |b|
  {
    if b == [] {
      assert a + b == a;
    } else {
      assert (a + b)[..|a + b| - 1] == a + b[..|b| - 1];
      assert Last(a + b) == Last(b);
      UnitsConcat(a, b[..|b| - 1]);
    }
  }

  /** With no negative quantity there is one label per unit: N of them. */
  lemma {:induction false} UnitsCount(products: seq<LabelProduct>)
    requires forall i :: 0 <= i < |products| ==> products[i].quantity >= 0
    ensures |Units(products)| == QuantityTotal(products)
  {
    if products != [] {
      UnitsCount(products[..|products| - 1]);
    }
  }

  /** The payloads printLabel sends, as it assembles them: the k-th label (from 1)
      is for the k-th unit. */
  function LabelJobs(order: LabelOrder): (r: seq<seq<Piece>>)
    ensures |r| == |Units(order.products)|
  {
    var units := Units(order.products);
    var total := QuantityTotal(order.products);
    seq(|units|, j requires 0 <= j < |units| => LabelPayloadAsWritten(order, units[j], j + 1, total))
  }

  /** Every label's third function prints "Order: <number> (k/N)". The label is a
      valid payload exactly when its unit's product has modifier groups and the
      first fits on one line, and then it is the payload with single commas. */
  lemma LabelsAreNumbered(order: LabelOrder, j: nat)
    requires j < |LabelJobs(order)|
    ensures var p := Units(order.products)[j];
            WellFormed(LabelJobs(order)[j]) <==> |p.modifierGroups| > 0 && |p.modifierGroups[0].modifiers| <= 2
    ensures var p := Units(order.products)[j];
            WellFormed(LabelJobs(order)[j]) ==>
              LabelJobs(order)[j] == LabelPayload(order, p, j + 1, QuantityTotal(order.products))
    ensures LabelJobs(order)[j][4] ==
            Entry(2, DrawText(Header(order.number, j + 1, QuantityTotal(order.products)), 0, 20))
  {
    JobAt(order, j);
    PayloadAsWrittenFacts(order, Units(order.products)[j], j + 1, QuantityTotal(order.products));
  }

  /** One payload as written: its header member, when it is valid, and what it then is. */
  lemma PayloadAsWrittenFacts(order: LabelOrder, p: LabelProduct, k: nat, total: int)
    ensures WellFormed(LabelPayloadAsWritten(order, p, k, total)) <==>
              |p.modifierGroups| > 0 && |p.modifierGroups[0].modifiers| <= 2
    ensures WellFormed(LabelPayloadAsWritten(order, p, k, total)) ==>
              LabelPayloadAsWritten(order, p, k, total) == LabelPayload(order, p, k, total)
    ensures LabelPayloadAsWritten(order, p, k, total)[4] == Entry(2, DrawText(Header(order.number, k, total), 0, 20))
  {
    var head := LabelHead(order, p, k, total);
    assert LabelPayloadAsWritten(order, p, k, total)[4] == head[4];
    LabelPayloadAsWrittenMalformed(order, p, k, total);
    if WellFormed(LabelPayloadAsWritten(order, p, k, total)) {
      AsWrittenIsCorrectedWhenValid(order, p, k, total);
    }
  }

  /** The labels of one product whose units are numbered from `done + 1`. */
  function ProductLabels(order: LabelOrder, product: LabelProduct, done: nat, total: int): (r: seq<seq<Piece>>)
    ensures |r| == Count(product)
  {
    seq(Count(product), j requires 0 <= j < Count(product) => LabelPayloadAsWritten(order, product, done + j + 1, total))
  }

  /** The i-th product's labels sit in the job list right after the labels of the products before it. */
  lemma JobsOfProduct(order: LabelOrder, i: nat)
    requires i < |order.products|
    ensures var done := |Units(order.products[..i])|;
            done + Count(order.products[i]) == |Units(order.products[..i + 1])| <= |LabelJobs(order)| &&
            LabelJobs(order)[done..done + Count(order.products[i])] ==
              ProductLabels(order, order.products[i], done, QuantityTotal(order.products))
  {
    UnitsAround(order.products, i);
    JobsRun(order, |Units(order.products[..i])|, order.products[i]);
  }

  /** A run of units of one product gets that product's labels, numbered on from the run's start. */
  lemma JobsRun(order: LabelOrder, done: nat, p: LabelProduct)
    requires done + Count(p) <= |LabelJobs(order)|
    requires forall j :: done <= j < done + Count(p) ==> Units(order.products)[j] == p
    ensures LabelJobs(order)[done..done + Count(p)] == ProductLabels(order, p, done, QuantityTotal(order.products))
  {
    var jobs := LabelJobs(order)[done..done + Count(p)];
    var labels := ProductLabels(order, p, done, QuantityTotal(order.products));
    forall j | 0 <= j < Count(p)
      ensures jobs[j] == labels[j]
    {
      JobAt(order, done + j);
    }
    assert jobs == labels;
  }

  lemma JobAt(order: LabelOrder, k: nat)
    requires k < |LabelJobs(order)|
    ensures LabelJobs(order)[k] == LabelPayloadAsWritten(order, Units(order.products)[k], k + 1, QuantityTotal(order.products))
  {
  }

  /** The i-th product's units follow the units of the products before it. */
  lemma UnitsAround(products: seq<LabelProduct>, i: nat)
    requires i < |products|
    ensures var done := |Units(products[..i])|;
            done + Count(products[i]) == |Units(products[..i + 1])| <= |Units(products)| &&
            forall j :: done <= j < done + Count(products[i]) ==> Units(products)[j] == products[i]
  {
    var p := products[i];
    UnitsConcat(products[..i + 1], products[i + 1..]);
    UnitsConcat(products[..i], [p]);
    assert products[..i + 1] + products[i + 1..] == products;
    assert products[..i] + [p] == products[..i + 1];
    assert [p][..0] == [];
    assert Units([p]) == [] + seq(Count(p), _ => p);
  }

  /** The inner loop of printLabel: one request per unit of the product, stopping
      at the request the server rejects. */
  method PrintProductLabels(order: LabelOrder, product: LabelProduct, done: nat, total: int, failure: Option<nat>)
    returns (requests: seq<seq<Piece>>, failed: bool)
    ensures var labels := ProductLabels(order, product, done, total);
            if failure.Some? && done <= failure.value < done + Count(product)
            then failed && requests == labels[..failure.value - done + 1]
            else !failed && requests == labels
  {
    ghost var labels := ProductLabels(order, product, done, total);
    var productCounter := done;
    requests := [];
    var qty := 0;
    while qty < product.quantity
      invariant 0 <= qty <= Count(product)
      invariant productCounter == done + qty
      invariant requests == labels[..qty]
      invariant !(failure.Some? && done <= failure.value < done + qty)
    {
      productCounter := productCounter + 1;
      requests := requests + [LabelPayloadAsWritten(order, product, productCounter, total)];
      assert requests == labels[..qty + 1];
      if failure == Some(productCounter - 1) {
        return requests, true;
      }
      qty := qty + 1;
    }
    assert requests == labels;
    failed := false;
  }

  /** The first loop of printLabel: the quantities of all products added up. */
  method SumQuantities(products: seq<LabelProduct>) returns (total: int)
    ensures total == QuantityTotal(products)
  {
    total := 0;
    var i := 0;
    while i < |products|
      invariant 0 <= i <= |products|
      invariant total == QuantityTotal(products[..i])
    {
      assert products[..i + 1][..i] == products[..i];
      total := total + products[i].quantity;
      i := i + 1;
    }
    assert products[..|products|] == products;
  }

  lemma PrefixExtends<T>(s: seq<T>, a: nat, b: nat)
    requires a <= b <= |s|
    ensures s[..a] + s[a..b] == s[..b]
  {
  }

  /** One turn of printLabel's outer loop: the i-th product's labels extend the
      jobs printed so far, up to the rejected one if it is among them. */
  method PrintNthProduct(order: LabelOrder, i: nat, done: nat, total: int, failure: Option<nat>)
    returns (more: seq<seq<Piece>>, failed: bool)
    requires i < |order.products| && done == |Units(order.products[..i])|
    requires total == QuantityTotal(order.products)
    ensures done <= |Units(order.products[..i + 1])| <= |LabelJobs(order)|
    ensures failed <==> failure.Some? && done <= failure.value < |Units(order.products[..i + 1])|
    ensures failed ==> LabelJobs(order)[..done] + more == LabelJobs(order)[..failure.value + 1]
    ensures !failed ==> LabelJobs(order)[..done] + more == LabelJobs(order)[..|Units(order.products[..i + 1])|]
  {
    JobsOfProduct(order, i);
    more, failed := PrintProductLabels(order, order.products[i], done, total, failure);
    PrefixExtends(LabelJobs(order), done, done + |more|);
  }

  /** printLabel: one request per unit, stopping at the request the server rejects
      (`failure`, counted from 0). */
  method PrintLabel(order: LabelOrder, failure: Option<nat>) returns (requests: seq<seq<Piece>>, failed: bool)
    ensures failure.Some? && failure.value < |LabelJobs(order)| ==>
              failed && requests == LabelJobs(order)[..failure.value + 1]
    ensures !(failure.Some? && failure.value < |LabelJobs(order)|) ==> !failed && requests == LabelJobs(order)
  {
    var products := order.products;
    var totalProductCount := SumQuantities(products);
    ghost var jobs := LabelJobs(order);
    requests := [];
    var done := 0;
    var i := 0;
    while i < |products|
      invariant 0 <= i <= |products|
      invariant done == |Units(products[..i])| <= |jobs|
      invariant requests == jobs[..done]
      invariant !(failure.Some? && failure.value < done)
    {
      var more, productFailed := PrintNthProduct(order, i, done, totalProductCount, failure);
      requests := requests + more;
      if productFailed {
        return requests, true;
      }
      done := |Units(products[..i + 1])|;
      i := i + 1;
    }
    assert products[..i] == products;
    assert jobs[..done] == jobs;
    failed := false;
  }

  // ---------------------------------------------------------------------------
  // Label server responses

  datatype ServerResponse = ServerResponse(readyState: int, status: int, result: string)

  /** What one response makes the client do: poll again, throw, or return. */
  datatype Step = Poll | Throw(message: string) | Finish

  /** requestPrint's reading of the first response. */
  function RequestStep(r: ServerResponse): (s: Step)
    ensures s == Poll <==> r.readyState == 4 && r.status == 200 && (r.result == "ready" || r.result == "progress")
    ensures s == Finish <==> r.readyState != 4
    ensures s.Throw? && r.status == 200 ==>
              s.message == (if r.result == "error" then "Error" else if r.result == "duplicated" then "Duplicated receipt" else "Undefined error")
    ensures s.Throw? && r.status != 200 ==> s.message == (if r.status == 404 then "No printers" else "Cannot connect to server")
  {
    if r.readyState == 4 && r.status == 200 then
      if r.result == "ready" || r.result == "progress" then Poll
      else if r.result == "error" then Throw("Error")
      else if r.result == "duplicated" then Throw("Duplicated receipt")
      else Throw("Undefined error")
    else if r.readyState == 4 && r.status == 404 then Throw("No printers")
    else if r.readyState == 4 then Throw("Cannot connect to server")
    else Finish
  }

  /** checkResult's reading of a status response: any other result means the label printed. */
  function CheckStep(r: ServerResponse): (s: Step)
    ensures s == Poll <==> r.readyState == 4 && r.status == 200 && (r.result == "ready" || r.result == "progress")
    ensures s == Finish <==> r.readyState != 4 || (r.status == 200 && r.result != "ready" && r.result != "progress" && r.result != "error")
    ensures s.Throw? ==> s.message in {"Error", "No printers", "Cannot connect to server"}
  {
    if r.readyState == 4 && r.status == 200 then
      if r.result == "ready" || r.result == "progress" then Poll
      else if r.result == "error" then Throw("Error")
      else Finish
    else if r.readyState == 4 && r.status == 404 then Throw("No printers")
    else if r.readyState == 4 then Throw("Cannot connect to server")
    else Finish
  }

  datatype PrintStatus = Completed | Failed(message: string) | StillPolling

  /** checkResult over the successive status responses; out of responses, it is still polling. */
  function CheckResult(polls: seq<ServerResponse>): (s: PrintStatus)
    ensures s.Failed? ==> s.message in {"Error", "No printers", "Cannot connect to server"}
    ensures s.Completed? ==> exists j :: 0 <= j < |polls| && CheckStep(polls[j]) == Finish
  {
    if polls == [] then StillPolling
    else match CheckStep(polls[0])
      case Poll =>
        var s := CheckResult(polls[1..]);
        assert forall j :: 0 <= j < |polls| - 1 ==> polls[1..][j] == polls[j + 1];
        s
      case Throw(m) => Failed(m)
      case Finish => Completed
  }

  /** A duplicated or unrecognised receipt is reported only from the first response. */
  function RequestPrint(first: ServerResponse, polls: seq<ServerResponse>): (s: PrintStatus)
    ensures s == Failed("Duplicated receipt") ==> first.readyState == 4 && first.status == 200 && first.result == "duplicated"
    ensures s == Failed("Undefined error") ==> RequestStep(first) == Throw("Undefined error")
    ensures s.Failed? ==> s.message in {"Error", "Duplicated receipt", "Undefined error", "No printers", "Cannot connect to server"}
  {
    match RequestStep(first)
    case Poll => CheckResult(polls)
    case Throw(m) => Failed(m)
    case Finish => Completed
  }

  // ---------------------------------------------------------------------------
  // The provider

  class PrintQueueStore {
    /** Whether the Electron bridge exists; without it printReceipt does nothing. */
    const ipcAvailable: bool
    /** The "failedPrintQueue" local-storage item. */
    var failedPrintQueue: Option<seq<FailedPrint>>
    /** The "ordersLastFetched" local-storage item. */
    var ordersLastFetched: Option<string>

    constructor (ipcAvailable: bool, failedPrintQueue: Option<seq<FailedPrint>>, ordersLastFetched: Option<string>)
      ensures this.ipcAvailable == ipcAvailable && this.failedPrintQueue == failedPrintQueue
      ensures this.ordersLastFetched == ordersLastFetched
    {
      this.ipcAvailable := ipcAvailable;
      this.failedPrintQueue := failedPrintQueue;
      this.ordersLastFetched := ordersLastFetched;
    }

    /** storeFailedPrint */
    method StoreFailedPrint(e: PrintError, order: OrderReceipt)
      modifies this
      ensures failedPrintQueue == Some(Stored(old(failedPrintQueue)) + [FailedPrint(ErrorText(e), order)])
      ensures ordersLastFetched == old(ordersLastFetched)
    {
      var current := if failedPrintQueue.Some? then failedPrintQueue.value else [];
      failedPrintQueue := Some(current + [FailedPrint(ErrorText(e), order)]);
    }

    /** removeSuccessPrintFromFailedPrintQueue */
    method RemoveSuccessPrint(order: OrderReceipt)
      modifies this
      ensures old(failedPrintQueue).None? ==> failedPrintQueue.None?
      ensures old(failedPrintQueue).Some? ==> failedPrintQueue == Some(WithoutOrder(old(failedPrintQueue).value, order.orderId))
      ensures ordersLastFetched == old(ordersLastFetched)
    {
      if failedPrintQueue.None? {
        return;
      }
      failedPrintQueue := Some(WithoutOrder(failedPrintQueue.value, order.orderId));
    }

    /** printReceipt */
    method PrintReceipt(order: OrderReceipt, isRetry: bool, answer: PrintAnswer)
      modifies this
      ensures failedPrintQueue == if ipcAvailable then QueueAfterPrint(old(failedPrintQueue), order, answer, isRetry)
                                  else old(failedPrintQueue)
      ensures ordersLastFetched == old(ordersLastFetched)
    {
      if !ipcAvailable {
        return;
      }
      match answer
      case PrintFailed(e) =>
        if !isRetry {
          StoreFailedPrint(e, order);
        }
      case Printed =>
        if isRetry {
          RemoveSuccessPrint(order);
        }
      case InvokeThrew =>
    }

    /** One tick of the retry interval: reprint every stored entry in queue order,
        reporting a queue of more than three entries. */
    method RetryFailedPrintQueue(answer: nat -> PrintAnswer) returns (retried: seq<OrderReceipt>, thresholdReported: bool)
      modifies this
      ensures old(failedPrintQueue).None? ==> failedPrintQueue.None? && retried == [] && !thresholdReported
      ensures old(failedPrintQueue).Some? ==>
                retried == OrdersOf(old(failedPrintQueue).value) &&
                thresholdReported == (|old(failedPrintQueue).value| > 3)
      ensures old(failedPrintQueue).Some? ==>
                failedPrintQueue == if ipcAvailable then QueueAfterPrints(old(failedPrintQueue), retried, answer, true, |retried|)
                                    else old(failedPrintQueue)
      ensures ordersLastFetched == old(ordersLastFetched)
    {
      retried := [];
      thresholdReported := false;
      if failedPrintQueue.None? {
        return;
      }
      var queue := failedPrintQueue.value;
      if |queue| > 3 {
        thresholdReported := true;
      }
      ghost var orders := OrdersOf(queue);
      var i := 0;
      while i < |queue|
        invariant 0 <= i <= |queue|
        invariant retried == orders[..i]
        invariant failedPrintQueue == if ipcAvailable then QueueAfterPrints(old(failedPrintQueue), orders, answer, true, i)
                                      else old(failedPrintQueue)
        invariant ordersLastFetched == old(ordersLastFetched)
      {
        var failedPrint := queue[i];
        PrintReceipt(failedPrint.order, true, answer(i));
        retried := retried + [failedPrint.order];
        i := i + 1;
      }
      assert orders[..i] == orders;
    }

    /** One tick of the new-order poll (receiptPrinter-context.tsx:47-91): set the
        watermark when none is stored (a stored empty string counts as none), otherwise fetch the orders placed since it,
        print them and move the watermark to `now`; a failed fetch keeps it. */
    method PollNewOrders(printers: seq<Printer>, registerId: Id, hasProducts: (Printer, NewOrder) -> bool,
                         now: string, fetched: Option<seq<NewOrder>>, answer: nat -> PrintAnswer)
      returns (window: Option<(string, string)>, sent: seq<(Printer, NewOrder)>)
      modifies this
      ensures window.Some? <==> (exists i :: 0 <= i < |printers| && Enabled(printers[i])) && Truthy(old(ordersLastFetched))
      ensures window.Some? ==> window.value == (old(ordersLastFetched).value, now)
      ensures window.None? ==> sent == [] && failedPrintQueue == old(failedPrintQueue)
      ensures window.None? ==> ordersLastFetched == if (exists i :: 0 <= i < |printers| && Enabled(printers[i]))
                                                    then Some(now) else old(ordersLastFetched)
      ensures window.Some? && fetched.None? ==>
                sent == [] && ordersLastFetched == old(ordersLastFetched) && failedPrintQueue == old(failedPrintQueue)
      ensures window.Some? && fetched.Some? ==>
                sent == NewOrderPrints(printers, fetched.value, registerId, hasProducts) && ordersLastFetched == Some(now)
      ensures window.Some? && fetched.Some? ==>
                failedPrintQueue == if ipcAvailable then QueueAfterPrints(old(failedPrintQueue), ReceiptsOf(sent), answer, false, |sent|)
                                    else old(failedPrintQueue)
    {
      window, sent := None, [];
      var matchingPrinter := MatchingPrinter(printers);
      if !matchingPrinter {
        return;
      }
      if !Truthy(ordersLastFetched) {
        ordersLastFetched := Some(now);
        return;
      }
      window := Some((ordersLastFetched.value, now));
      if fetched.None? {
        return;
      }
      sent := PrintNewOrderReceipts(printers, fetched.value, registerId, hasProducts);
      PrintAll(ReceiptsOf(sent), answer);
      ordersLastFetched := Some(now);
    }

    /** The printReceipt calls, first attempts, one after the other. */
    method PrintAll(receipts: seq<OrderReceipt>, answer: nat -> PrintAnswer)
      modifies this
      ensures failedPrintQueue == if ipcAvailable then QueueAfterPrints(old(failedPrintQueue), receipts, answer, false, |receipts|)
                                  else old(failedPrintQueue)
      ensures ordersLastFetched == old(ordersLastFetched)
    {
      var k := 0;
      while k < |receipts|
        invariant 0 <= k <= |receipts|
        invariant failedPrintQueue == if ipcAvailable then QueueAfterPrints(old(failedPrintQueue), receipts, answer, false, k)
                                      else old(failedPrintQueue)
        invariant ordersLastFetched == old(ordersLastFetched)
      {
        PrintReceipt(receipts[k], false, answer(k));
        k := k + 1;
      }
    }
  }

  /** Whether some printer prints receipts of new orders; without one the poll is never set up. */
  method MatchingPrinter(printers: seq<Printer>) returns (matching: bool)
    ensures matching <==> exists i :: 0 <= i < |printers| && Enabled(printers[i])
  {
    matching := false;
    var i := 0;
    while i < |printers|
      invariant 0 <= i <= |printers|
      invariant matching <==> exists k :: 0 <= k < i && Enabled(printers[k])
    {
      if printers[i].printAllOrderReceipts || printers[i].printOnlineOrderReceipts {
        matching := true;
      }
      i := i + 1;
    }
  }

  function ReceiptsOf(sent: seq<(Printer, NewOrder)>): (r: seq<OrderReceipt>)
    ensures |r| == |sent| && forall i :: 0 <= i < |sent| ==> r[i] == OrderReceipt(sent[i].1.id, sent[i].1.number)
  {
    seq(|sent|, i requires 0 <= i < |sent| => OrderReceipt(sent[i].1.id, sent[i].1.number))
  }
}

/** When each transaction of the cash desk is granted, who may make it, and what it then writes: in terms of
    the rows, for any state of the ledger invariant. */
module CashAnswers {
  import opened Sums
  import opened CashTables
  import opened CashLedger
  import opened CashRuns

  predicate Live(db: Db, f: Id) { f < |db.funds| && !db.funds[f].deleted }

  predicate OnShift(db: Db, employee: Employee, s: Id) {
    s < |db.shifts| && db.shifts[s].employee == employee && db.shifts[s].status == Open
  }

  predicate NoOpenShiftOn(db: Db, f: Id) {
    forall s :: 0 <= s < |db.shifts| && db.shifts[s].status == Open ==> db.shifts[s].fund != f
  }

  predicate NoHandoverUnderWay(db: Db, f: Id) {
    forall h :: 0 <= h < |db.handovers| && (db.handovers[h].status == Pending || db.handovers[h].settlement == AwaitingBank) ==>
      db.handovers[h].source != f && db.handovers[h].destination != f
  }

  /** The balance of the fund that a shift is on. */
  function TillOf(db: Db, s: Id): int {
    if s < |db.shifts| && db.shifts[s].fund < |db.funds| then db.funds[db.shifts[s].fund].balance else 0
  }

  /** The fund holds so much more. */
  function WithMore(funds: seq<Fund>, f: Id, amount: int): seq<Fund>
    requires f < |funds|
  {
    funds[f := funds[f].(balance := funds[f].balance + amount)]
  }

  // ----- what the invariant says about tills -----

  /** An employee has a till exactly while on an open shift, which is then the only one. */
  lemma TillIsTheOpenShift(db: Db, employee: Employee)
    requires Inv(db)
    ensures var s := OpenShiftOf(db.shifts, employee);
            && (HasTill(db, employee) <==> s < |db.shifts|)
            && (s < |db.shifts| ==> OnShift(db, employee, s) && db.shifts[s].fund < |db.funds| && TillOf(db, s) >= 0)
            && (forall r: Id :: OnShift(db, employee, r) ==> r == s)
  {
    var s := OpenShiftOf(db.shifts, employee);
    if s < |db.shifts| {
      assert ShiftOk(db.shifts[s], s, db);
      assert FundOk(db.funds[db.shifts[s].fund], db.shifts[s].fund, db.txns);
    }
  }

  /** An open shift is on a live cash fund, and reconciles to its balance. */
  lemma OpenShiftIsOnCash(db: Db, s: Id)
    requires Inv(db) && s < |db.shifts| && db.shifts[s].status == Open
    ensures Live(db, db.shifts[s].fund) && db.funds[db.shifts[s].fund].kind == Cash && Reconciled(db, s) == TillOf(db, s) >= 0
  {
    assert ShiftOk(db.shifts[s], s, db);
    assert FundOk(db.funds[db.shifts[s].fund], db.shifts[s].fund, db.txns);
  }

  /** Neither fund of a handover has an open shift: for a fund that is no cash fund that is never in doubt. */
  lemma BusyIsAnOpenShift(db: Db, source: Id, destination: Id)
    requires Inv(db) && destination < |db.funds|
    ensures FundsBusy(db, source, destination) <==> !(NoOpenShiftOn(db, source) && NoOpenShiftOn(db, destination))
  {
    forall s | 0 <= s < |db.shifts| && db.shifts[s].status == Open
      ensures db.funds[db.shifts[s].fund].kind == Cash
    {
      OpenShiftIsOnCash(db, s);
    }
  }

  // ----- commands -----

  /** A command whose key is on record replays its answer, or is refused for another request. */
  ghost predicate ReplaySays(before: Db, o: Outcome, k: CommandKey, q: Request) {
    k in before.commands ==>
      o == if before.commands[k].request == q then Ok(before, before.commands[k].response) else Fail(Conflict)
  }

  /** A command that ran is on record, and no other command's record has changed. */
  ghost predicate Noted(before: Db, o: Outcome, k: CommandKey, q: Request) {
    o.Ok? ==> o.db.commands == before.commands[k := CommandRow(q, o.response)]
  }

  // ----- funds -----

  ghost predicate RetypeSays(before: Db, o: Outcome, fund: Id, kind: FundType) {
    && (o.Ok? <==>
          && Live(before, fund)
          && (kind == before.funds[fund].kind || (fund !in before.statements && NoHandoverUnderWay(before, fund) && NoOpenShiftOn(before, fund))))
    && (o.Fail? ==> o == Fail(if Live(before, fund) then Conflict else NotFound))
    && (o.Ok? ==> o.db == before.(funds := before.funds[fund := before.funds[fund].(kind := kind)]))
  }

  lemma RetypeAnswers(db: Db, fund: Id, kind: FundType)
    ensures RetypeSays(db, RetypeFund(db, fund, kind), fund, kind)
  {
  }

  ghost predicate RemoveSays(before: Db, o: Outcome, fund: Id) {
    && (o.Ok? <==> Live(before, fund) && before.funds[fund].balance == 0 && NoHandoverUnderWay(before, fund) && NoOpenShiftOn(before, fund))
    && (o.Fail? ==> o == Fail(if Live(before, fund) then Conflict else NotFound))
    && (o.Ok? ==> o.db == before.(funds := before.funds[fund := before.funds[fund].(deleted := true)]))
  }

  lemma RemoveAnswers(db: Db, fund: Id)
    ensures RemoveSays(db, RemoveFund(db, fund), fund)
  {
  }

  // ----- shifts -----

  /** A shift opens on a live cash fund that nobody else is on and that owes no handover, for an employee who is
      not on another shift; it expects what the fund holds. */
  ghost predicate OpenSays(before: Db, o: Outcome, employee: Employee, key: string, fund: Id, cash: Money) {
    var k, q := CommandKey(employee, OPEN_COMMAND, key), OpenRequest(fund, cash);
    && ReplaySays(before, o, k, q)
    && (k !in before.commands ==>
         && (o.Ok? <==>
               && Live(before, fund) && before.funds[fund].kind == Cash && NoOpenShiftOn(before, fund)
               && (forall s: Id :: !OnShift(before, employee, s))
               && forall h :: 0 <= h < |before.handovers| && before.handovers[h].source == fund ==> before.handovers[h].status != Pending)
         && (o.Fail? ==> o == Fail(if Live(before, fund) then Conflict else NotFound))
         && Noted(before, o, k, q)
         && (o.Ok? ==>
              && o.response == Created(|before.shifts|)
              && o.db == before.(commands := o.db.commands,
                                 shifts := before.shifts + [Shift(employee, fund, cash, before.funds[fund].balance, Open)])))
  }

  lemma OpenAnswers(db: Db, employee: Employee, key: string, fund: Id, cash: Money)
    requires Inv(db)
    ensures OpenSays(db, OpenCommand(db, employee, key, fund, cash), employee, key, fund, cash)
  {
    hide Inv, OpenShiftOf;
    TillIsTheOpenShift(db, employee);
  }

  /** A movement needs the employee's own open shift, and cash in the till if it is an expense below the
      threshold; from the threshold on it only asks for approval. */
  ghost predicate MovementSays(before: Db, o: Outcome, employee: Employee, key: string, shift: Id, flow: Flow, amount: Money, threshold: Money) {
    var k, q := CommandKey(employee, MOVEMENT_COMMAND, key), MovementRequest(shift, flow, amount);
    && ReplaySays(before, o, k, q)
    && (k !in before.commands ==>
         && (o.Ok? <==> OnShift(before, employee, shift) && (flow == Income || amount >= threshold || amount <= TillOf(before, shift)))
         && (o.Fail? ==> o == Fail(Conflict))
         && Noted(before, o, k, q)
         && (o.Ok? ==>
              && before.shifts[shift].fund < |before.funds|
              && if flow == Expense && amount >= threshold then
                   && o.response == ApprovalNeeded(|before.requests|)
                   && o.db == before.(commands := o.db.commands,
                                      requests := before.requests + [ExpenseRequest(amount, employee, shift, before.shifts[shift].fund, Pending, None)])
                 else
                   && o.response == MovementMade(|before.txns|)
                   && o.db == before.(commands := o.db.commands,
                                      txns := before.txns + [CashTx(flow, amount, before.shifts[shift].fund, Some(shift), Manual)],
                                      funds := WithMore(before.funds, before.shifts[shift].fund, if flow == Income then amount else 0 - amount))))
  }

  lemma MovementAnswers(db: Db, employee: Employee, key: string, shift: Id, flow: Flow, amount: Money, threshold: Money)
    requires Inv(db)
    ensures MovementSays(db, MovementCommand(db, employee, key, shift, flow, amount, threshold), employee, key, shift, flow, amount, threshold)
  {
    hide Inv, OpenShiftOf, HasTill;
    TillIsTheOpenShift(db, employee);
    if OnShift(db, employee, shift) {
      OpenShiftIsOnCash(db, shift);
    }
  }

  /** A pending request is paid out by someone else, on its open shift, from a till that holds the amount. */
  ghost predicate ApproveExpenseSays(before: Db, o: Outcome, id: Id, employee: Employee) {
    && (id >= |before.requests| ==> o == Fail(NotFound))
    && (id < |before.requests| ==>
         var r := before.requests[id];
         && (o.Ok? <==> r.status == Pending && r.requestedBy != employee && r.shift < |before.shifts| && before.shifts[r.shift].status == Open
                        && before.shifts[r.shift].fund == r.fund && r.amount <= TillOf(before, r.shift))
         && (o.Fail? ==> o == Fail(if r.status == Pending && r.requestedBy == employee then Forbidden else Conflict))
         && (o.Ok? ==>
              && r.fund < |before.funds|
              && o.response == MovementMade(|before.txns|)
              && o.db == before.(requests := before.requests[id := r.(status := Approved, tx := Some(|before.txns|))],
                                 txns := before.txns + [CashTx(Expense, r.amount, r.fund, Some(r.shift), Manual)],
                                 funds := WithMore(before.funds, r.fund, 0 - r.amount))))
  }

  lemma RequestIsPositive(db: Db, id: Id)
    requires Inv(db)
    ensures id < |db.requests| ==> db.requests[id].amount > 0
  {
  }

  lemma ApproveExpenseAnswers(db: Db, id: Id, employee: Employee)
    requires Inv(db)
    ensures ApproveExpenseSays(db, ApproveExpense(db, id, employee), id, employee)
  {
    hide Inv, Reconciled;
    RequestIsPositive(db, id);
    if id < |db.requests| && db.requests[id].shift < |db.shifts| && db.shifts[db.requests[id].shift].status == Open {
      OpenShiftIsOnCash(db, db.requests[id].shift);
    }
  }

  /** Somebody else rejects a pending request, its own requester cancels it. */
  predicate MayResolve(requestedBy: Employee, employee: Employee, status: RequestStatus) {
    (status == Rejected && requestedBy != employee) || (status == Cancelled && requestedBy == employee)
  }

  ghost predicate ResolveExpenseSays(before: Db, o: Outcome, id: Id, employee: Employee, status: RequestStatus) {
    && (id >= |before.requests| ==> o == Fail(NotFound))
    && (id < |before.requests| ==>
         var r := before.requests[id];
         && (o.Ok? <==> r.status == Pending && MayResolve(r.requestedBy, employee, status))
         && (r.status != Pending ==> o == Fail(Conflict))
         && (r.status == Pending && status == Rejected && r.requestedBy == employee ==> o == Fail(Forbidden))
         && (r.status == Pending && status == Cancelled && r.requestedBy != employee ==> o == Fail(Forbidden))
         && (o.Ok? ==> o.db == before.(requests := before.requests[id := r.(status := status)])))
  }

  lemma ResolveExpenseAnswers(db: Db, id: Id, employee: Employee, status: RequestStatus)
    ensures ResolveExpenseSays(db, ResolveExpense(db, id, employee, status), id, employee, status)
  {
  }

  /** The employee's own open shift closes once nothing on it is pending, if what was counted is the balance of
      its fund, or off by less than the threshold, or explained by a note. What it answers is the difference. */
  ghost predicate CloseSays(before: Db, o: Outcome, employee: Employee, key: string, shift: Id, reported: Money, hasNote: bool, threshold: Money,
                            unresolvedPayments: nat, activeSessions: nat) {
    var k, q := CommandKey(employee, CLOSE_COMMAND, key), CloseRequest(shift, reported, hasNote);
    var till := TillOf(before, shift);
    var nothingPending := (forall r :: 0 <= r < |before.requests| && before.requests[r].shift == shift ==> before.requests[r].status != Pending)
                          && unresolvedPayments == 0 && activeSessions == 0;
    var explained := reported == till || (till - threshold < reported < till + threshold) || hasNote;
    && ReplaySays(before, o, k, q)
    && (k !in before.commands ==>
         && (o.Ok? <==> OnShift(before, employee, shift) && nothingPending && explained)
         && (o.Fail? ==> o == Fail(if OnShift(before, employee, shift) && nothingPending then BadRequest else Conflict))
         && Noted(before, o, k, q)
         && (o.Ok? ==>
              && o.response == ShiftClosed(shift, reported - till)
              && o.db == before.(commands := o.db.commands,
                                 shifts := before.shifts[shift := before.shifts[shift].(status := Closed(reported, till))])))
  }

  lemma CloseAnswers(db: Db, employee: Employee, key: string, shift: Id, reported: Money, hasNote: bool, threshold: Money, payments: nat, sessions: nat)
    requires Inv(db)
    ensures CloseSays(db, CloseCommand(db, employee, key, shift, reported, hasNote, threshold, payments, sessions),
                      employee, key, shift, reported, hasNote, threshold, payments, sessions)
  {
    if OnShift(db, employee, shift) {
      OpenShiftIsOnCash(db, shift);
    }
    hide Inv, Reconciled;
  }

  // ----- invoices -----

  /** Cash must be tendered and cover the total; a card needs nothing tendered; a transfer is not taken here. */
  predicate PaymentTaken(total: int, paidBy: Method, tendered: Option<Money>) {
    match paidBy
    case CashPayment => total > 0 && tendered.Some? && tendered.value >= total
    case Card => tendered.None? || tendered.value >= total
    case Transfer => false
  }

  predicate TooLittle(total: int, paidBy: Method, tendered: Option<Money>) {
    if tendered.Some? then tendered.value < total else paidBy == CashPayment
  }

  /** The ledger rows of a payment: one sale for cash, none otherwise. */
  function SaleRowsOf(paidBy: Method, total: int, fund: Id, shift: Id, invoice: Id): seq<CashTx> {
    if paidBy == CashPayment then [CashTx(Income, total, fund, Some(shift), Sale(invoice))] else []
  }

  /** Employee `employee`, on shift `s`, has taken the payment of the invoice in row `id`. */
  ghost predicate PaidOn(before: Db, after: Db, id: Id, total: int, paidBy: Method, s: Id) {
    && s < |before.shifts| && before.shifts[s].fund < |before.funds|
    && id < |after.invoices|
    && after.invoices[id] == Invoice(total, paidBy, Paid, Some(s), if paidBy == CashPayment then Some(|before.txns|) else None)
    && after.txns == before.txns + SaleRowsOf(paidBy, total, before.shifts[s].fund, s, id)
    && after.funds == WithMore(before.funds, before.shifts[s].fund, if paidBy == CashPayment then total else 0)
    && after == before.(invoices := after.invoices, txns := after.txns, funds := after.funds)
  }

  lemma UnpaidHasNoRow(db: Db, id: Id)
    requires Inv(db) && id < |db.invoices| && db.invoices[id].status == Unpaid
    ensures db.invoices[id].cashTx == None
  {
    assert InvoiceOk(db.invoices[id], id, db.refunds, db.txns);
  }

  lemma PaymentBooks(db: Db, id: Id, employee: Employee, paidBy: Method, tendered: Option<Money>)
    requires id < |db.invoices| && db.invoices[id].cashTx == None && paidBy != Transfer
    requires var s := OpenShiftOf(db.shifts, employee); (HasTill(db, employee) <==> s < |db.shifts|) && (s < |db.shifts| ==> db.shifts[s].fund < |db.funds|)
    ensures var o := Pay(db, id, employee, paidBy, tendered);
            && (o.Ok? <==> PaymentTaken(db.invoices[id].total, paidBy, tendered) && OpenShiftOf(db.shifts, employee) < |db.shifts|)
            && (o.Fail? ==> o == Fail(if TooLittle(db.invoices[id].total, paidBy, tendered) then BadRequest else Conflict))
            && (o.Ok? ==> PaidOn(db, o.db, id, db.invoices[id].total, paidBy, OpenShiftOf(db.shifts, employee))
                          && o.db.invoices == db.invoices[id := o.db.invoices[id]])
  {
    hide OpenShiftOf, HasTill;
    var s := OpenShiftOf(db.shifts, employee);
    if s < |db.shifts| {
      assert WithMore(db.funds, db.shifts[s].fund, 0) == db.funds;
    }
    assert db.txns + [] == db.txns;
  }

  ghost predicate PaySays(before: Db, o: Outcome, id: Id, employee: Employee, paidBy: Method, tendered: Option<Money>) {
    && (id >= |before.invoices| ==> o == Fail(NotFound))
    && (id < |before.invoices| ==>
         var v := before.invoices[id];
         && (o.Ok? <==> v.status == Unpaid && PaymentTaken(v.total, paidBy, tendered) && exists s: Id :: OnShift(before, employee, s))
         && (o.Fail? ==> o == Fail(if v.status != Unpaid || paidBy == Transfer || TooLittle(v.total, paidBy, tendered) then BadRequest else Conflict))
         && (o.Ok? ==> forall s: Id :: OnShift(before, employee, s) ==>
              PaidOn(before, o.db, id, v.total, paidBy, s) && o.db.invoices == before.invoices[id := o.db.invoices[id]]))
  }

  lemma PayAnswers(db: Db, id: Id, employee: Employee, paidBy: Method, tendered: Option<Money>)
    requires Inv(db)
    ensures PaySays(db, PayInvoice(db, id, employee, paidBy, tendered), id, employee, paidBy, tendered)
  {
    hide Inv, OpenShiftOf, HasTill;
    TillIsTheOpenShift(db, employee);
    if id < |db.invoices| && db.invoices[id].status == Unpaid && paidBy != Transfer {
      UnpaidHasNoRow(db, id);
      PaymentBooks(db, id, employee, paidBy, tendered);
      hide Pay, PaidOn;
    }
  }

  lemma TillIgnoresInvoices(db: Db, employee: Employee, total: Money)
    ensures HasTill(IssueInvoice(db, total).db, employee) == HasTill(db, employee)
  {
  }

  ghost predicate CheckoutSays(before: Db, o: Outcome, employee: Employee, total: Money, paidBy: Method, tendered: Option<Money>) {
    && (o.Ok? <==> PaymentTaken(total, paidBy, tendered) && exists s: Id :: OnShift(before, employee, s))
    && (o.Fail? ==> o == Fail(if paidBy == Transfer || TooLittle(total, paidBy, tendered) then BadRequest else Conflict))
    && (o.Ok? ==> forall s: Id :: OnShift(before, employee, s) ==>
         PaidOn(before, o.db, |before.invoices|, total, paidBy, s) && o.db.invoices == before.invoices + [o.db.invoices[|before.invoices|]])
  }

  lemma CheckoutAnswers(db: Db, employee: Employee, total: Money, paidBy: Method, tendered: Option<Money>)
    requires Inv(db)
    ensures CheckoutSays(db, Checkout(db, employee, total, paidBy, tendered), employee, total, paidBy, tendered)
  {
    hide Inv, OpenShiftOf, HasTill;
    TillIsTheOpenShift(db, employee);
    TillIgnoresInvoices(db, employee, total);
    if paidBy != Transfer {
      PaymentBooks(IssueInvoice(db, total).db, |db.invoices|, employee, paidBy, tendered);
      hide Pay;
    }
  }

  ghost predicate VoidSays(before: Db, o: Outcome, id: Id) {
    && (o.Ok? <==> id < |before.invoices| && before.invoices[id].status == Unpaid)
    && (o.Fail? ==> o == Fail(if id < |before.invoices| then BadRequest else NotFound))
    && (o.Ok? ==> o.db == before.(invoices := before.invoices[id := before.invoices[id].(status := Voided)]))
  }

  lemma VoidAnswers(db: Db, id: Id)
    ensures VoidSays(db, VoidInvoice(db, id), id)
  {
  }

  /** A confirmed transfer pays an unpaid invoice, without a ledger row. */
  ghost predicate OnlineSays(before: Db, o: Outcome, id: Id, shift: Id) {
    && (o.Ok? <==> id < |before.invoices| && before.invoices[id].status == Unpaid)
    && (o.Fail? ==> o == Fail(if id < |before.invoices| then BadRequest else NotFound))
    && (o.Ok? ==> o.db == before.(invoices := before.invoices[id := Invoice(before.invoices[id].total, Transfer, Paid, Some(shift), None)]))
  }

  lemma OnlineAnswers(db: Db, id: Id, shift: Id)
    requires Inv(db)
    ensures OnlineSays(db, CompleteOnline(db, id, shift), id, shift)
  {
    assert id < |db.invoices| && db.invoices[id].status == Unpaid ==> InvoiceOk(db.invoices[id], id, db.refunds, db.txns);
    hide Inv;
  }

  ghost predicate ProviderRefundSays(before: Db, o: Outcome, id: Id, amount: Money) {
    && (o.Ok? <==> id < |before.invoices| && before.invoices[id].paidBy == Transfer
                   && (before.invoices[id].status == Paid || before.invoices[id].status == PartiallyRefunded))
    && (o.Fail? ==> o == Fail(if id < |before.invoices| then Conflict else NotFound))
    && (o.Ok? ==>
         var v := before.invoices[id];
         var back := Total(before.reversals, ReversedOn(id)) + amount;
         o.db == before.(reversals := before.reversals + [ProviderRefund(id, amount, v.shift)],
                         invoices := before.invoices[id := v.(status := if back < v.total then PartiallyRefunded else Refunded)]))
  }

  lemma ProviderRefundAnswers(db: Db, id: Id, amount: Money)
    ensures ProviderRefundSays(db, BookProviderRefund(db, id, amount), id, amount)
  {
  }

  // ----- cash refunds -----

  /** A new refund needs a paid cash invoice whose items were handed off, an amount within what is left of its
      total, and the employee's own open shift with so much cash in its till. */
  predicate RefundGranted(before: Db, employee: Employee, request: RefundRequest, shift: Id, handedOff: bool) {
    && handedOff && OnShift(before, employee, shift) && request.amount <= TillOf(before, shift)
    && request.invoice < |before.invoices|
    && var v := before.invoices[request.invoice];
       && v.paidBy == CashPayment && (v.status == Paid || v.status == PartiallyRefunded)
       && Total(before.refunds, RefundedOn(request.invoice)) + request.amount <= v.total
  }

  predicate RefundBooked(before: Db, o: Outcome, employee: Employee, key: string, request: RefundRequest, shift: Id)
    requires request.invoice < |before.invoices| && o.Ok?
  {
    var v := before.invoices[request.invoice];
    var left := v.total - Total(before.refunds, RefundedOn(request.invoice)) - request.amount;
    && shift < |before.shifts| && before.shifts[shift].fund < |before.funds|
    && o.response == Created(|before.refunds|)
    && o.db == before.(commands := o.db.commands,
                       refunds := before.refunds + [CashRefund(request, employee, key, |before.txns|)],
                       txns := before.txns + [CashTx(Expense, request.amount, before.shifts[shift].fund, Some(shift), RefundOf(|before.refunds|))],
                       funds := WithMore(before.funds, before.shifts[shift].fund, 0 - request.amount),
                       invoices := before.invoices[request.invoice := v.(status := if left == 0 then Refunded else PartiallyRefunded)])
  }

  /** A key that a refund row keeps answers with that refund if invoice, amount, reason and shift are the same. */
  ghost predicate RefundSays(before: Db, o: Outcome, employee: Employee, key: string, request: RefundRequest, shift: Id, handedOff: bool) {
    var k, q := CommandKey(employee, REFUND_COMMAND, key), CashRefundRequest(request, shift);
    && ReplaySays(before, o, k, q)
    && (k !in before.commands ==>
         && Noted(before, o, k, q)
         && (forall r :: 0 <= r < |before.refunds| && before.refunds[r].employee == employee && before.refunds[r].key == key ==>
              var same := before.refunds[r].request == request && before.refunds[r].tx < |before.txns|
                          && before.txns[before.refunds[r].tx].shift == Some(shift);
              if same then o.Ok? && o.response == Created(r) && o.db == before.(commands := o.db.commands) else o == Fail(Conflict))
         && ((forall r :: 0 <= r < |before.refunds| ==> before.refunds[r].employee != employee || before.refunds[r].key != key) ==>
              && (o.Ok? <==> RefundGranted(before, employee, request, shift, handedOff))
              && (o.Fail? ==> o == Fail(if request.invoice < |before.invoices| then Conflict else NotFound))
              && (o.Ok? ==> RefundBooked(before, o, employee, key, request, shift))))
  }

  lemma PaidSaleIsOnLedger(db: Db, i: Id)
    requires Inv(db) && i < |db.invoices|
    ensures db.invoices[i].paidBy == CashPayment && (db.invoices[i].status == Paid || db.invoices[i].status == PartiallyRefunded) ==> SaleOnLedger(db, i)
  {
    assert InvoiceOk(db.invoices[i], i, db.refunds, db.txns);
  }

  lemma NewRefundAnswers(db: Db, employee: Employee, key: string, request: RefundRequest, shift: Id, handedOff: bool)
    requires Inv(db) && RefundByKey(db.refunds, employee, key) == |db.refunds|
    ensures var o := RefundCash(db, employee, key, request, shift, handedOff);
            && (o.Ok? <==> RefundGranted(db, employee, request, shift, handedOff))
            && (o.Fail? ==> o == Fail(if request.invoice < |db.invoices| then Conflict else NotFound))
            && (o.Ok? ==> request.invoice < |db.invoices| && o.db.commands == db.commands && RefundBooked(db, o, employee, key, request, shift))
  {
    hide Inv, OpenShiftOf, HasTill, Total, SaleOnLedger;
    TillIsTheOpenShift(db, employee);
    if request.invoice < |db.invoices| {
      PaidSaleIsOnLedger(db, request.invoice);
    }
  }

  lemma BookingIgnoresCommands(before: Db, o: Outcome, p: Outcome, employee: Employee, key: string, request: RefundRequest, shift: Id)
    requires request.invoice < |before.invoices| && o.Ok? && RefundBooked(before, o, employee, key, request, shift)
    ensures p.Ok? && p.response == o.response && p.db == o.db.(commands := p.db.commands) ==> RefundBooked(before, p, employee, key, request, shift)
  {
  }

  lemma KnownRefundAnswers(db: Db, employee: Employee, key: string, request: RefundRequest, shift: Id, handedOff: bool)
    requires Inv(db) && RefundByKey(db.refunds, employee, key) < |db.refunds|
    ensures var r := RefundByKey(db.refunds, employee, key);
            && (forall i :: 0 <= i < |db.refunds| && db.refunds[i].employee == employee && db.refunds[i].key == key ==> i == r)
            && RefundCash(db, employee, key, request, shift, handedOff) ==
                 if db.refunds[r].request == request && db.refunds[r].tx < |db.txns| && db.txns[db.refunds[r].tx].shift == Some(shift)
                 then Ok(db, Created(r)) else Fail(Conflict)
  {
    assert RefundsOk(db.refunds, db.txns, |db.invoices|);
    hide Inv;
  }

  lemma RefundAnswers(db: Db, employee: Employee, key: string, request: RefundRequest, shift: Id, handedOff: bool)
    requires Inv(db)
    ensures RefundSays(db, RefundCommand(db, employee, key, request, shift, handedOff), employee, key, request, shift, handedOff)
  {
    hide Inv, RefundCash, RefundGranted, RefundBooked;
    if RefundByKey(db.refunds, employee, key) == |db.refunds| {
      NewRefundAnswers(db, employee, key, request, shift, handedOff);
      if RefundCash(db, employee, key, request, shift, handedOff).Ok? {
        BookingIgnoresCommands(db, RefundCash(db, employee, key, request, shift, handedOff),
                               RefundCommand(db, employee, key, request, shift, handedOff), employee, key, request, shift);
      }
    } else {
      KnownRefundAnswers(db, employee, key, request, shift, handedOff);
    }
  }

  // ----- handovers -----

  /** The cashier of a closed shift asks to hand over the counted cash but for what is retained, out of a fund that
      still holds what the shift closed with, to another live fund; no open shift is on either, and the shift has no
      other handover pending or approved. */
  predicate HandoverGranted(before: Db, employee: Employee, shift: Id, destination: Id, retained: Money) {
    && shift < |before.shifts|
    && var s := before.shifts[shift];
       && s.employee == employee && s.status.Closed? && Live(before, s.fund) && before.funds[s.fund].kind == Cash
       && Live(before, destination) && destination != s.fund
       && NoOpenShiftOn(before, s.fund) && NoOpenShiftOn(before, destination)
       && before.funds[s.fund].balance == s.status.actual && retained < s.status.reported
       && forall h :: 0 <= h < |before.handovers| && before.handovers[h].shift == shift ==>
            before.handovers[h].status != Pending && before.handovers[h].status != Approved
  }

  ghost predicate HandoverSays(before: Db, o: Outcome, employee: Employee, shift: Id, destination: Id, retained: Money) {
    && (o.Ok? <==> HandoverGranted(before, employee, shift, destination, retained))
    && (shift >= |before.shifts| ==> o == Fail(NotFound))
    && (shift < |before.shifts| && before.shifts[shift].employee != employee ==> o == Fail(Forbidden))
    && (o.Ok? ==>
         var s := before.shifts[shift];
         var counted, expected := s.status.reported, s.status.actual;
         && o.response == Created(|before.handovers|)
         && o.db == before.(handovers := before.handovers
              + [Handover(shift, s.fund, destination, employee, expected, counted, counted - expected, retained, counted - retained,
                          Pending, NotRequired, None, None, None, None, None)]))
  }

  lemma HandoverAnswers(db: Db, employee: Employee, shift: Id, destination: Id, retained: Money)
    requires Inv(db)
    ensures HandoverSays(db, RequestHandover(db, employee, shift, destination, retained), employee, shift, destination, retained)
  {
    if shift < |db.shifts| && destination < |db.funds| {
      BusyIsAnOpenShift(db, db.shifts[shift].fund, destination);
    }
    hide Inv, FundsBusy;
  }

  /** Somebody other than its requester approves a pending handover while both funds are live, the source is a cash
      fund with the expected balance, and no open shift is on either. */
  predicate ApprovalGranted(before: Db, id: Id, employee: Employee) {
    && id < |before.handovers|
    && var h := before.handovers[id];
       && h.status == Pending && h.requestedBy != employee
       && Live(before, h.source) && Live(before, h.destination) && before.funds[h.source].kind == Cash
       && NoOpenShiftOn(before, h.source) && NoOpenShiftOn(before, h.destination)
       && before.funds[h.source].balance == h.expected
  }

  /** The source is left with the retained cash; a destination that is no bank has the rest at once. The difference
      between the count and the expectation, the way out and the way in each have their row, which the handover names. */
  predicate HandoverApproved(before: Db, after: Db, id: Id)
    requires id < |before.handovers|
  {
    var h := before.handovers[id];
    var difference, moved, n := h.counted - h.expected, h.counted - h.retained, |before.txns|;
    var counting := if difference == 0 then [] else
                      [CashTx(if difference > 0 then Income else Expense, if difference > 0 then difference else 0 - difference, h.source, None, Variance(id))];
    var out := CashTx(Expense, moved, h.source, None, Outgoing(id));
    && h.source < |before.funds| && h.destination < |before.funds|
    && var bank := before.funds[h.destination].kind == Bank;
       && after.funds == WithMore(before.funds[h.source := before.funds[h.source].(balance := h.retained)], h.destination, if bank then 0 else moved)
       && after.txns == before.txns + counting + [out] + (if bank then [] else [CashTx(Income, moved, h.destination, None, Incoming(id))])
       && after.handovers == before.handovers[id := h.(
            status := Approved, settlement := if bank then AwaitingBank else NotRequired,
            varianceTx := if difference == 0 then None else Some(n),
            sourceTx := Some(n + |counting|),
            destinationTx := if bank then h.destinationTx else Some(n + |counting| + 1))]
       && after == before.(funds := after.funds, txns := after.txns, handovers := after.handovers)
  }

  lemma HandoverSplits(db: Db, id: Id)
    requires Inv(db) && id < |db.handovers|
    ensures var h := db.handovers[id];
            && h.source < |db.funds| && h.destination < |db.funds|
            && h.variance == h.counted - h.expected && h.transfer == h.counted - h.retained
  {
    assert HandoverOk(db.handovers[id], id, db.txns, db.funds);
  }

  lemma ApprovalBooks(db: Db, id: Id, employee: Employee)
    requires ApproveHandover(db, id, employee).Ok? && id < |db.handovers|
    requires var h := db.handovers[id]; h.variance == h.counted - h.expected && h.transfer == h.counted - h.retained
    ensures HandoverApproved(db, ApproveHandover(db, id, employee).db, id)
  {
    hide FundsBusy;
    var h, d := db.handovers[id], ApproveHandover(db, id, employee).db;
    var left := db.funds[h.source := db.funds[h.source].(balance := h.retained)];
    assert WithMore(left, h.destination, 0) == left;
    assert d.txns == db.txns + VarianceRow(id, h) + [OutgoingRow(id, h)]
                     + (if db.funds[h.destination].kind == Bank then [] else [IncomingRow(id, h)]);
  }

  ghost predicate ApproveSays(before: Db, o: Outcome, id: Id, employee: Employee) {
    && (o.Ok? <==> ApprovalGranted(before, id, employee))
    && (o.Fail? ==> o == Fail(if id >= |before.handovers| then NotFound
                              else if before.handovers[id].status == Pending && before.handovers[id].requestedBy == employee then Forbidden
                              else Conflict))
    && (o.Ok? ==> HandoverApproved(before, o.db, id))
  }

  lemma ApproveAnswers(db: Db, id: Id, employee: Employee)
    requires Inv(db)
    ensures ApproveSays(db, ApproveHandover(db, id, employee), id, employee)
  {
    hide Inv, FundsBusy, HandoverApproved;
    if id < |db.handovers| {
      HandoverSplits(db, id);
      BusyIsAnOpenShift(db, db.handovers[id].source, db.handovers[id].destination);
      if ApproveHandover(db, id, employee).Ok? {
        ApprovalBooks(db, id, employee);
      }
    }
  }

  ghost predicate DeclineSays(before: Db, o: Outcome, id: Id, employee: Employee, status: RequestStatus) {
    && (id >= |before.handovers| ==> o == Fail(NotFound))
    && (id < |before.handovers| ==>
         var h := before.handovers[id];
         && (o.Ok? <==> h.status == Pending && MayResolve(h.requestedBy, employee, status))
         && (h.status != Pending ==> o == Fail(Conflict))
         && (h.status == Pending && status == Rejected && h.requestedBy == employee ==> o == Fail(Forbidden))
         && (h.status == Pending && status == Cancelled && h.requestedBy != employee ==> o == Fail(Forbidden))
         && (o.Ok? ==> o.db == before.(handovers := before.handovers[id := h.(status := status)])))
  }

  lemma DeclineAnswers(db: Db, id: Id, employee: Employee, status: RequestStatus)
    ensures DeclineSays(db, DeclineHandover(db, id, employee, status), id, employee, status)
  {
  }

  /** No other handover to the fund has this reference. */
  predicate ReferenceFree(before: Db, id: Id, reference: string)
    requires id < |before.handovers|
  {
    forall i :: 0 <= i < |before.handovers| && i != id && before.handovers[i].destination == before.handovers[id].destination ==>
      before.handovers[i].bankRef != Some(reference)
  }

  /** Somebody other than its requester settles a handover that awaits the bank, with what was registered if anything
      was, under a reference of its own. */
  predicate SettleGranted(before: Db, id: Id, employee: Employee, reference: string, evidence: string) {
    && id < |before.handovers|
    && var h := before.handovers[id];
       && h.settlement == AwaitingBank && h.requestedBy != employee
       && (h.bankRef.None? || (h.bankRef == Some(reference) && h.evidence == Some(evidence)))
       && ReferenceFree(before, id, reference)
  }

  /** The deposit of a handover is in its bank fund, with its row, and nothing but statement entries has changed else. */
  predicate Arrived(before: Db, after: Db, id: Id, reference: string, evidence: string)
    requires id < |before.handovers|
  {
    var h := before.handovers[id];
    && h.destination < |before.funds|
    && after == before.(
         funds := WithMore(before.funds, h.destination, h.counted - h.retained),
         txns := before.txns + [CashTx(Income, h.counted - h.retained, h.destination, None, Incoming(id))],
         handovers := before.handovers[id := h.(settlement := Settled, bankRef := Some(reference), evidence := Some(evidence),
                                                destinationTx := Some(|before.txns|))],
         entries := after.entries)
  }

  ghost predicate SettleSays(before: Db, o: Outcome, id: Id, employee: Employee, reference: string, evidence: string) {
    && (o.Ok? <==> SettleGranted(before, id, employee, reference, evidence))
    && (o.Fail? ==> o == Fail(if id >= |before.handovers| then NotFound
                              else if before.handovers[id].settlement == AwaitingBank && before.handovers[id].requestedBy == employee then Forbidden
                              else Conflict))
    && (o.Ok? ==> Arrived(before, o.db, id, reference, evidence) && o.db.entries == before.entries)
  }

  lemma SettleAnswers(db: Db, id: Id, employee: Employee, reference: string, evidence: string)
    requires Inv(db)
    ensures SettleSays(db, Settle(db, id, employee, reference, evidence), id, employee, reference, evidence)
  {
    assert id < |db.handovers| ==> HandoverOk(db.handovers[id], id, db.txns, db.funds);
    hide Inv, Tagged, Total;
  }

  /** The requester registers the deposit of a handover that awaits the bank, once; the same again changes nothing. */
  ghost predicate DepositSays(before: Db, o: Outcome, id: Id, employee: Employee, reference: string, evidence: string) {
    && (id >= |before.handovers| ==> o == Fail(NotFound))
    && (id < |before.handovers| ==>
         var h := before.handovers[id];
         && (o.Ok? <==>
               && h.settlement == AwaitingBank && h.requestedBy == employee
               && if h.bankRef.Some? then h.bankRef == Some(reference) && h.evidence == Some(evidence) else ReferenceFree(before, id, reference))
         && (o.Fail? ==> o == Fail(if h.settlement == AwaitingBank && h.requestedBy != employee then Forbidden else Conflict))
         && (o.Ok? ==> o.db == before.(handovers := before.handovers[id := h.(bankRef := Some(reference), evidence := Some(evidence))])))
  }

  lemma DepositAnswers(db: Db, id: Id, employee: Employee, reference: string, evidence: string)
    requires Inv(db)
    ensures DepositSays(db, RegisterDeposit(db, id, employee, reference, evidence), id, employee, reference, evidence)
  {
    assert id < |db.handovers| ==> HandoverOk(db.handovers[id], id, db.txns, db.funds);
    assert id < |db.handovers| ==> db.handovers == db.handovers[id := db.handovers[id]];
    hide Inv, Tagged, Total;
  }

  // ----- bank statements -----

  /** Lines are imported if no external identifier comes twice, in the import or in the fund's earlier ones; credits
      then wait to be matched, debits are ignored. */
  ghost predicate ImportSays(before: Db, o: Outcome, fund: Id, lines: seq<Line>) {
    && (o.Ok? <==>
          && fund < |before.funds|
          && (forall i, j :: 0 <= i < j < |lines| ==> lines[i].externalId != lines[j].externalId)
          && (forall l, e :: 0 <= l < |lines| && 0 <= e < |before.entries| && before.entries[e].fund == fund ==>
               before.entries[e].line.externalId != lines[l].externalId))
    && (o.Fail? ==> o == Fail(if fund < |before.funds| then Conflict else NotFound))
    && (o.Ok? ==>
         && o.response == Created(|before.statements|) && |o.db.entries| == |before.entries| + |lines|
         && o.db == before.(statements := before.statements + [fund], entries := o.db.entries)
         && o.db.entries[..|before.entries|] == before.entries
         && forall i :: 0 <= i < |lines| ==>
              o.db.entries[|before.entries| + i] == Entry(|before.statements|, fund, lines[i], if lines[i].credit then Unmatched else Ignored))
  }

  lemma ImportAnswers(db: Db, fund: Id, lines: seq<Line>)
    ensures ImportSays(db, ImportStatement(db, fund, lines), fund, lines)
  {
  }

  predicate ReferenceKnown(before: Db, e: Entry) {
    e.line.bankRef.Some? && exists h :: 0 <= h < |before.handovers| && before.handovers[h].destination == e.fund && before.handovers[h].bankRef == e.line.bankRef
  }

  /** The entry is marked, and no other. */
  predicate Marked(before: Db, after: Db, id: Id, m: Match)
    requires id < |before.entries|
  {
    after.entries == before.entries[id := before.entries[id].(matching := m)]
  }

  /** An open entry ends matched to the handover it is eligible for, which is settled if it still awaits the bank;
      unmatched if no handover to its fund has its reference; and as a mismatch otherwise. It is refused only if the
      handover would have to be settled by its own requester. */
  ghost predicate ReconcileSays(before: Db, o: Outcome, id: Id, employee: Employee) {
    && (id >= |before.entries| ==> o == Fail(NotFound))
    && (id < |before.entries| ==>
         var e := before.entries[id];
         if e.matching != Unmatched && e.matching != Mismatch then o == Ok(before, Done)
         else
           && (o.Fail? <==> exists h: Id :: Eligible(before, id, h) && before.handovers[h].settlement == AwaitingBank && before.handovers[h].requestedBy == employee)
           && (o.Ok? ==>
                && (forall h: Id :: Eligible(before, id, h) ==>
                     && Marked(before, o.db, id, Matched(h))
                     && if before.handovers[h].settlement == AwaitingBank
                        then Arrived(before, o.db, h, e.line.bankRef.value, before.handovers[h].evidence.value)
                        else o.db == before.(entries := o.db.entries))
                && ((forall h: Id :: !Eligible(before, id, h)) ==>
                     && Marked(before, o.db, id, if ReferenceKnown(before, e) then Mismatch else Unmatched)
                     && o.db == before.(entries := o.db.entries))))
  }

  /** What an entry is eligible for is what its reference finds. */
  lemma OnlyOneFits(db: Db, id: Id)
    requires Inv(db) && id < |db.entries|
    ensures var e := db.entries[id];
            && (e.line.bankRef.None? ==> !ReferenceKnown(db, e) && forall h: Id :: !Eligible(db, id, h))
            && (e.line.bankRef.Some? ==>
                 var found := HandoverByReference(db.handovers, e.fund, e.line.bankRef.value);
                 && (ReferenceKnown(db, e) <==> found < |db.handovers|)
                 && (forall h: Id :: Eligible(db, id, h) ==> h == found < |db.handovers|)
                 && (found < |db.handovers| ==>
                      var ho := db.handovers[found];
                      Eligible(db, id, found) <==> ho.transfer == e.line.amount && ho.status == Approved && ho.settlement != NotRequired
                                                   && !MatchedElsewhere(db.entries, id, found) && ho.evidence.Some?))
  {
    var e := db.entries[id];
    if e.line.bankRef.Some? {
      forall h: Id | h < |db.handovers| && Eligible(db, id, h)
        ensures h == HandoverByReference(db.handovers, e.fund, e.line.bankRef.value)
      {
        ReferenceIsUnique(db.handovers, db.txns, db.funds, h);
      }
    }
    hide Inv;
  }

  /** An eligible handover that awaits the bank is settled by anybody but its requester. */
  lemma SettlesWhatFits(db: Db, id: Id, h: Id, employee: Employee)
    requires Inv(db) && id < |db.entries| && Eligible(db, id, h) && db.handovers[h].settlement == AwaitingBank
    ensures var reference, evidence := db.entries[id].line.bankRef.value, db.handovers[h].evidence.value;
            var o := Settle(db, h, employee, reference, evidence);
            && (o.Ok? <==> db.handovers[h].requestedBy != employee)
            && (o.Ok? ==> Arrived(db, o.db, h, reference, evidence) && o.db.entries == db.entries)
  {
    var reference := db.entries[id].line.bankRef.value;
    SettleAnswers(db, h, employee, reference, db.handovers[h].evidence.value);
    ReferenceIsFree(db, h);
    hide Inv, Settle, Arrived;
  }

  lemma ReferenceIsFree(db: Db, h: Id)
    requires Inv(db) && h < |db.handovers| && db.handovers[h].bankRef.Some?
    ensures ReferenceFree(db, h, db.handovers[h].bankRef.value)
  {
  }

  lemma ReconcileAnswers(db: Db, id: Id, employee: Employee)
    requires Inv(db)
    ensures ReconcileSays(db, ReconcileEntry(db, id, employee), id, employee)
  {
    hide Inv, Settle, Eligible, ReferenceKnown, MatchedElsewhere, HandoverByReference;
    if id < |db.entries| && OpenMatch(db.entries[id].matching) {
      var e, o := db.entries[id], ReconcileEntry(db, id, employee);
      OnlyOneFits(db, id);
      if e.line.bankRef.Some? && HandoverByReference(db.handovers, e.fund, e.line.bankRef.value) < |db.handovers| {
        var found := HandoverByReference(db.handovers, e.fund, e.line.bankRef.value);
        if !Eligible(db, id, found) {
          assert o == Ok(Remark(db, id, Mismatch), Done);
        } else if db.handovers[found].settlement == AwaitingBank {
          SettlesWhatFits(db, id, found, employee);
        } else {
          assert o == Ok(Remark(db, id, Matched(found)), Done);
        }
      } else {
        assert o == Ok(Remark(db, id, Unmatched), Done);
      }
    }
  }

  ghost predicate IgnoreSays(before: Db, o: Outcome, id: Id) {
    && (o.Ok? <==> id < |before.entries| && !before.entries[id].matching.Matched?)
    && (o.Fail? ==> o == Fail(if id < |before.entries| then Conflict else NotFound))
    && (o.Ok? ==> o.db == before.(entries := before.entries[id := before.entries[id].(matching := Ignored)]))
  }

  lemma IgnoreAnswers(db: Db, id: Id)
    ensures IgnoreSays(db, IgnoreEntry(db, id), id)
  {
    assert id < |db.entries| ==> db.entries == db.entries[id := db.entries[id]];
  }
}

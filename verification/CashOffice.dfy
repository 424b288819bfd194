/** The cash services as they run: one object holds the tables, and each method is the body of one
    serializable transaction. Its contract ties the new tables and the answer to the transaction's
    specification in `CashTables` and says what the caller may rely on: the ledger invariant stays, nothing
    durable is taken back, the shop owns exactly so much more or less, and a refusal changes nothing. */
module CashOffice {
  import opened Sums
  import opened CashTables
  import opened CashLedger
  import opened CashRuns
  import opened CashPromises
  import opened CashAnswers

  datatype Reply = Answer(response: Response) | Refusal(error: Error)

  datatype Reconciliation = Reconciliation(cashSales: int, nonCashSales: int, totalSales: int, paidInvoices: nat,
                                           manualIncome: int, manualExpense: int, cashRefunds: int, actualEndingCash: int)

  function NonCashSaleIn(s: Id): Invoice -> int {
    (i: Invoice) => if i.shift == Some(s) && i.paidBy != CashPayment && Settleable(i.status) then i.total else 0
  }

  function PaidIn(s: Id): Invoice -> int {
    (i: Invoice) => if i.shift == Some(s) && Settleable(i.status) then 1 else 0
  }

  /** The invoices of a shift that were paid, whatever was refunded on them since. */
  function SoldIn(s: Id): Invoice -> int {
    (i: Invoice) => if i.shift == Some(s) && i.status != Unpaid && i.status != Voided then i.total else 0
  }

  function SettledIn(invoices: seq<Invoice>, s: Id): set<Id> {
    set i: Id | i < |invoices| && invoices[i].shift == Some(s) && invoices[i].status != Unpaid && invoices[i].status != Voided
  }

  lemma SettledSoFar(invoices: seq<Invoice>, n: nat, s: Id)
    requires |invoices| == n + 1
    ensures |SettledIn(invoices, s)| == |SettledIn(invoices[..n], s)| + PaidIn(s)(invoices[n])
  {
    var last := if invoices[n].shift == Some(s) && invoices[n].status != Unpaid && invoices[n].status != Voided then {n} else {};
    assert SettledIn(invoices, s) == SettledIn(invoices[..n], s) + last;
  }

  lemma {:induction false} SettledAreCounted(invoices: seq<Invoice>, s: Id)
    ensures Total(invoices, PaidIn(s)) == |SettledIn(invoices, s)|
  {
    if invoices == [] {
      assert SettledIn(invoices, s) == {};
    } else {
      var n := |invoices| - 1;
      SettledAreCounted(invoices[..n], s);
      SettledSoFar(invoices, n, s);
      hide SettledIn;
    }
  }

  lemma SoldIsAllSales(invoices: seq<Invoice>, s: Id)
    ensures Total(invoices, SoldIn(s)) == Total(invoices, SaleIn(s)) + Total(invoices, NonCashSaleIn(s))
  {
    TotalsAdd(invoices, invoices, SaleIn(s), NonCashSaleIn(s), SoldIn(s));
  }

  /** `reconcile` on a batch: each entry in turn, marked as a mismatch when its own transaction failed. */
  function ReconcileAll(db: Db, batch: seq<Id>, employee: Employee): Db {
    if batch == [] then db
    else
      var n := |batch| - 1;
      var before := ReconcileAll(db, batch[..n], employee);
      ReconcileOrMark(before, batch[n], employee)
  }

  function ReconcileOrMark(db: Db, id: Id, employee: Employee): Db {
    match ReconcileEntry(db, id, employee)
    case Ok(d, _) => d
    case Fail(_) => if id < |db.entries| then Remark(db, id, Mismatch) else db
  }

  class CashDesk {
    var funds: seq<Fund>
    var shifts: seq<Shift>
    var txns: seq<CashTx>
    var invoices: seq<Invoice>
    var refunds: seq<CashRefund>
    var requests: seq<ExpenseRequest>
    var handovers: seq<Handover>
    var statements: seq<Id>
    var entries: seq<Entry>
    var commands: map<CommandKey, CommandRow>
    var reversals: seq<ProviderRefund>

    constructor ()
      ensures Snapshot() == EMPTY
    {
      funds, shifts, txns, invoices, refunds := [], [], [], [], [];
      requests, handovers, statements, entries, commands, reversals := [], [], [], [], map[], [];
    }

    function Snapshot(): Db
      reads this
    {
      Db(funds, shifts, txns, invoices, refunds, requests, handovers, statements, entries, commands, reversals)
    }

    /** The tables and the answer are those of the outcome `o`, from the tables `before`. */
    ghost predicate Did(before: Db, o: Outcome, r: Reply)
      reads this
    {
      match o
      case Ok(db, response) => Snapshot() == db && r == Answer(response)
      case Fail(error) => Snapshot() == before && r == Refusal(error)
    }

    /** The outcome of a call that left these tables and this reply. */
    ghost function Now(r: Reply): Outcome
      reads this
    {
      match r
      case Answer(response) => Ok(Snapshot(), response)
      case Refusal(error) => Fail(error)
    }

    /** The invariant holds, what was durable is still there, what the shop owns has changed by `gain` if the
        call was answered, and a refused call changed nothing. */
    ghost predicate Kept(before: Db, r: Reply, gain: int)
      reads this
    {
      && Inv(Snapshot()) && Extends(before, Snapshot())
      && Holdings(Snapshot()) == Holdings(before) + (if r.Answer? then gain else 0)
      && (r.Refusal? ==> Snapshot() == before)
    }

    // ----- funds.service -----

    method CreateFund(kind: FundType, opening: Money) returns (r: Reply)
      requires Inv(Snapshot())
      modifies this
      ensures Did(old(Snapshot()), CashTables.CreateFund(old(Snapshot()), kind, opening), r)
      ensures Kept(old(Snapshot()), r, opening)
      ensures r == Answer(Created(|old(funds)|)) && funds == old(funds) + [Fund(kind, opening, opening, false)]
    {
      hide Inv, Extends, Holdings;
      CreateFundPromise(Snapshot(), kind, opening);
      r := Answer(Created(|funds|));
      funds := funds + [Fund(kind, opening, opening, false)];
    }

    method UpdateFund(fund: Id, kind: FundType) returns (r: Reply)
      requires Inv(Snapshot())
      modifies this
      ensures Did(old(Snapshot()), RetypeFund(old(Snapshot()), fund, kind), r)
      ensures Kept(old(Snapshot()), r, 0)
      ensures forall s :: 0 <= s < |shifts| && s < |old(shifts)| ==> Reconciled(Snapshot(), s) == old(Reconciled(Snapshot(), s))
      ensures RetypeSays(old(Snapshot()), Now(r), fund, kind)
    {
      hide Inv, Extends, Holdings, Reconciled, InvoiceDecided, ExpenseDecided, HandoverDecided, HandoverByReference, Eligible, RetypeSays;
      RetypeAnswers(Snapshot(), fund, kind);
      RetypePromises(Snapshot(), fund, kind);
      if fund >= |funds| || funds[fund].deleted { return Refusal(NotFound); }
      if kind != funds[fund].kind {
        if fund in statements { return Refusal(Conflict); }
        if HasUnfinishedHandover(handovers, fund) { return Refusal(Conflict); }
        if FundHasOpenShift(shifts, fund) { return Refusal(Conflict); }
      }
      funds := funds[fund := funds[fund].(kind := kind)];
      return Answer(Done);
    }

    method RemoveFund(fund: Id) returns (r: Reply)
      requires Inv(Snapshot())
      modifies this
      ensures Did(old(Snapshot()), CashTables.RemoveFund(old(Snapshot()), fund), r)
      ensures Kept(old(Snapshot()), r, 0)
      ensures r.Answer? ==> fund < |old(funds)| && old(funds)[fund].opening + Total(txns, FlowOf(fund)) == 0
      ensures RemoveSays(old(Snapshot()), Now(r), fund)
    {
      hide Inv, Extends, Holdings, Reconciled, InvoiceDecided, ExpenseDecided, HandoverDecided, HandoverByReference, Eligible, RemoveSays;
      RemoveAnswers(Snapshot(), fund);
      RemovePromises(Snapshot(), fund);
      if fund >= |funds| || funds[fund].deleted { return Refusal(NotFound); }
      if funds[fund].balance != 0 { return Refusal(Conflict); }
      if FundHasOpenShift(shifts, fund) { return Refusal(Conflict); }
      if HasUnfinishedHandover(handovers, fund) { return Refusal(Conflict); }
      funds := funds[fund := funds[fund].(deleted := true)];
      return Answer(Done);
    }

    // ----- cashier-shifts.service -----

    method Open(employee: Employee, key: string, fund: Id, startingCash: Money) returns (r: Reply)
      requires Inv(Snapshot())
      modifies this
      ensures Did(old(Snapshot()), OpenCommand(old(Snapshot()), employee, key, fund, startingCash), r)
      ensures Kept(old(Snapshot()), r, 0)
      ensures r.Answer? ==> Recorded(Snapshot(), CommandKey(employee, OPEN_COMMAND, key), OpenRequest(fund, startingCash), r.response)
      ensures r.Answer? && |shifts| > |old(shifts)| ==> fund < |funds| && Reconciled(Snapshot(), |old(shifts)|) == funds[fund].balance
      ensures OpenSays(old(Snapshot()), Now(r), employee, key, fund, startingCash)
    {
      hide Inv, Extends, Holdings, Reconciled, InvoiceDecided, ExpenseDecided, HandoverDecided, HandoverByReference, Eligible, OpenSays;
      OpenAnswers(Snapshot(), employee, key, fund, startingCash);
      OpenPromises(Snapshot(), employee, key, fund, startingCash);
      var k, q := CommandKey(employee, OPEN_COMMAND, key), OpenRequest(fund, startingCash);
      if k in commands { return Replay(commands[k], q); }
      if fund >= |funds| || funds[fund].deleted { return Refusal(NotFound); }
      if funds[fund].kind != Cash { return Refusal(Conflict); }
      if HasPendingHandoverFrom(handovers, fund) { return Refusal(Conflict); }
      // The unique indexes on open shifts per employee and per fund.
      if OpenShiftOf(shifts, employee) < |shifts| || FundHasOpenShift(shifts, fund) { return Refusal(Conflict); }
      var response := Created(|shifts|);
      shifts := shifts + [Shift(employee, fund, startingCash, funds[fund].balance, ShiftStatus.Open)];
      commands := commands[k := CommandRow(q, response)];
      return Answer(response);
    }

    /** `IdempotencyService.replay`. */
    function Replay(row: CommandRow, q: Request): Reply {
      if row.request != q then Refusal(Conflict) else Answer(row.response)
    }

    /** `postMovement`: moves the balance under its guard, then writes the row. */
    method PostMovement(shift: Id, fund: Id, flow: Flow, amount: Money) returns (r: Reply)
      modifies this
      ensures Did(old(Snapshot()), CashTables.PostMovement(old(Snapshot()), shift, fund, flow, amount), r)
    {
      if fund >= |funds| || funds[fund].deleted { return Refusal(Conflict); }
      if flow == Income {
        funds := funds[fund := funds[fund].(balance := funds[fund].balance + amount)];
      } else {
        if funds[fund].balance < amount { return Refusal(Conflict); }
        funds := funds[fund := funds[fund].(balance := funds[fund].balance - amount)];
      }
      r := Answer(MovementMade(|txns|));
      txns := txns + [CashTx(flow, amount, fund, Some(shift), Manual)];
    }

    method AddMovement(employee: Employee, key: string, expected: Id, flow: Flow, amount: Money, threshold: Money)
      returns (r: Reply)
      requires Inv(Snapshot()) && amount > 0
      modifies this
      ensures Did(old(Snapshot()), MovementCommand(old(Snapshot()), employee, key, expected, flow, amount, threshold), r)
      ensures Kept(old(Snapshot()), r, MovementGain(old(Snapshot()), employee, key, flow, amount, threshold))
      ensures r.Answer? ==> Recorded(Snapshot(), CommandKey(employee, MOVEMENT_COMMAND, key), MovementRequest(expected, flow, amount), r.response)
      ensures MovementSays(old(Snapshot()), Now(r), employee, key, expected, flow, amount, threshold)
    {
      hide Inv, Extends, Holdings, Reconciled, InvoiceDecided, ExpenseDecided, HandoverDecided, HandoverByReference, Eligible, MovementSays;
      MovementAnswers(Snapshot(), employee, key, expected, flow, amount, threshold);
      MovementPromises(Snapshot(), employee, key, expected, flow, amount, threshold);
      var k, q := CommandKey(employee, MOVEMENT_COMMAND, key), MovementRequest(expected, flow, amount);
      if k in commands { return Replay(commands[k], q); }
      if !HasTill(Snapshot(), employee) { return Refusal(Conflict); }
      var s := OpenShiftOf(shifts, employee);
      if s != expected { return Refusal(Conflict); }
      if flow == Expense && amount >= threshold {
        r := Answer(ApprovalNeeded(|requests|));
        requests := requests + [ExpenseRequest(amount, employee, s, shifts[s].fund, Pending, None)];
      } else {
        r := PostMovement(s, shifts[s].fund, flow, amount);
      }
      if r.Answer? {
        commands := commands[k := CommandRow(q, r.response)];
      }
    }

    method ApproveExpense(id: Id, employee: Employee) returns (r: Reply)
      requires Inv(Snapshot())
      modifies this
      ensures Did(old(Snapshot()), CashTables.ApproveExpense(old(Snapshot()), id, employee), r)
      ensures Kept(old(Snapshot()), r, if id < |old(requests)| then -old(requests)[id].amount else 0)
      ensures r.Answer? ==> ExpenseDecided(Snapshot(), id)
      ensures ApproveExpenseSays(old(Snapshot()), Now(r), id, employee)
    {
      hide Inv, Extends, Holdings, Reconciled, InvoiceDecided, ExpenseDecided, HandoverDecided, HandoverByReference, Eligible, ApproveExpenseSays;
      ApproveExpenseAnswers(Snapshot(), id, employee);
      ExpensePromises(Snapshot(), id, employee);
      if id >= |requests| { return Refusal(NotFound); }
      var row := requests[id];
      if row.status != Pending { return Refusal(Conflict); }
      if row.requestedBy == employee { return Refusal(Forbidden); }
      if row.shift >= |shifts| || row.fund >= |funds| || row.amount < 0 { return Refusal(Conflict); }
      if shifts[row.shift].status != ShiftStatus.Open || shifts[row.shift].fund != row.fund { return Refusal(Conflict); }
      if funds[row.fund].deleted || funds[row.fund].kind != Cash { return Refusal(Conflict); }
      var tx := |txns|;
      r := PostMovement(row.shift, row.fund, Expense, row.amount);
      if r.Answer? {
        requests := requests[id := row.(status := Approved, tx := Some(tx))];
      }
    }

    method ResolveExpense(id: Id, employee: Employee, status: RequestStatus) returns (r: Reply)
      requires Inv(Snapshot())
      modifies this
      ensures Did(old(Snapshot()), CashTables.ResolveExpense(old(Snapshot()), id, employee, status), r)
      ensures Kept(old(Snapshot()), r, 0)
      ensures r.Answer? ==> ExpenseDecided(Snapshot(), id)
      ensures ResolveExpenseSays(old(Snapshot()), Now(r), id, employee, status)
    {
      hide Inv, Extends, Holdings, Reconciled, InvoiceDecided, ExpenseDecided, HandoverDecided, HandoverByReference, Eligible, ResolveExpenseSays;
      ResolveExpenseAnswers(Snapshot(), id, employee, status);
      ResolvePromises(Snapshot(), id, employee, status);
      if id >= |requests| { return Refusal(NotFound); }
      if requests[id].status != Pending { return Refusal(Conflict); }
      if status == Rejected && requests[id].requestedBy == employee { return Refusal(Forbidden); }
      if status == Cancelled && requests[id].requestedBy != employee { return Refusal(Forbidden); }
      if status != Rejected && status != Cancelled { return Refusal(BadRequest); }
      requests := requests[id := requests[id].(status := status)];
      return Answer(Done);
    }

    /** `calculateReconciliation`: accumulates the shift's invoices, movements and refunds. */
    method CalculateReconciliation(s: Id) returns (c: Reconciliation)
      requires s < |shifts|
      ensures c.actualEndingCash == Reconciled(Snapshot(), s)
      ensures c.cashSales == Total(invoices, SaleIn(s))
      ensures c.totalSales == Total(invoices, SoldIn(s)) - Total(reversals, ReversedIn(s)) && c.paidInvoices == |SettledIn(invoices, s)|
      ensures c.nonCashSales == c.totalSales - c.cashSales
      ensures c.manualIncome == Total(txns, MovementIn(s, Income)) && c.manualExpense == Total(txns, MovementIn(s, Expense))
      ensures c.cashRefunds == Total(refunds, RefundIn(txns, s))
    {
      var cash, nonCash, total, count := 0, 0, 0, 0;
      for i := 0 to |invoices|
        invariant cash == Total(invoices[..i], SaleIn(s)) && nonCash == Total(invoices[..i], NonCashSaleIn(s))
        invariant total == cash + nonCash && count == Total(invoices[..i], PaidIn(s)) >= 0
      {
        assert invoices[..i + 1][..i] == invoices[..i];
        if invoices[i].shift == Some(s) && Settleable(invoices[i].status) {
          count := count + 1;
          total := total + invoices[i].total;
          if invoices[i].paidBy == CashPayment {
            cash := cash + invoices[i].total;
          } else {
            nonCash := nonCash + invoices[i].total;
          }
        }
      }
      assert invoices[..|invoices|] == invoices;
      var reversed := 0;
      for i := 0 to |reversals|
        invariant reversed == Total(reversals[..i], ReversedIn(s))
      {
        assert reversals[..i + 1][..i] == reversals[..i];
        if reversals[i].shift == Some(s) {
          reversed := reversed + reversals[i].amount;
        }
      }
      assert reversals[..|reversals|] == reversals;
      SettledAreCounted(invoices, s);
      SoldIsAllSales(invoices, s);
      nonCash, total := nonCash - reversed, total - reversed;
      var income, expense := 0, 0;
      for t := 0 to |txns|
        invariant income == Total(txns[..t], MovementIn(s, Income)) && expense == Total(txns[..t], MovementIn(s, Expense))
      {
        assert txns[..t + 1][..t] == txns[..t];
        if txns[t].shift == Some(s) && !txns[t].purpose.Sale? && !txns[t].purpose.RefundOf? {
          if txns[t].flow == Income {
            income := income + txns[t].amount;
          } else {
            expense := expense + txns[t].amount;
          }
        }
      }
      assert txns[..|txns|] == txns;
      var refunded := 0;
      for i := 0 to |refunds|
        invariant refunded == Total(refunds[..i], RefundIn(txns, s))
      {
        assert refunds[..i + 1][..i] == refunds[..i];
        if refunds[i].tx < |txns| && txns[refunds[i].tx].shift == Some(s) {
          refunded := refunded + refunds[i].request.amount;
        }
      }
      assert refunds[..|refunds|] == refunds;
      c := Reconciliation(cash, nonCash, total, count, income, expense, refunded,
                          shifts[s].expectedStart + cash + income - expense - refunded);
    }

    method Close(employee: Employee, key: string, expected: Id, reported: Money, hasNote: bool, noteThreshold: Money,
                 unresolvedPayments: nat, activeSessions: nat)
      returns (r: Reply)
      requires Inv(Snapshot())
      modifies this
      ensures Did(old(Snapshot()), CloseCommand(old(Snapshot()), employee, key, expected, reported, hasNote, noteThreshold,
                                                unresolvedPayments, activeSessions), r)
      ensures Kept(old(Snapshot()), r, 0)
      ensures r.Answer? ==> Recorded(Snapshot(), CommandKey(employee, CLOSE_COMMAND, key), CloseRequest(expected, reported, hasNote), r.response)
      ensures r.Answer? && CommandKey(employee, CLOSE_COMMAND, key) !in old(commands) ==>
                expected < |shifts| && shifts[expected].fund < |funds|
                && shifts[expected].status == Closed(reported, funds[shifts[expected].fund].balance)
      ensures CloseSays(old(Snapshot()), Now(r), employee, key, expected, reported, hasNote, noteThreshold, unresolvedPayments, activeSessions)
    {
      hide Inv, Extends, Holdings, Reconciled, CloseSays;
      CloseAnswers(Snapshot(), employee, key, expected, reported, hasNote, noteThreshold, unresolvedPayments, activeSessions);
      ClosePromises(Snapshot(), employee, key, expected, reported, hasNote, noteThreshold, unresolvedPayments, activeSessions);
      var k, q := CommandKey(employee, CLOSE_COMMAND, key), CloseRequest(expected, reported, hasNote);
      if k in commands { return Replay(commands[k], q); }
      if expected >= |shifts| || shifts[expected].employee != employee || shifts[expected].status != ShiftStatus.Open {
        return Refusal(Conflict);
      }
      if HasPendingRequest(requests, expected) { return Refusal(Conflict); }
      if unresolvedPayments > 0 { return Refusal(Conflict); }
      if activeSessions > 0 { return Refusal(Conflict); }
      var c := CalculateReconciliation(expected);
      var difference := reported - c.actualEndingCash;
      if difference != 0 && Abs(difference) >= noteThreshold && !hasNote { return Refusal(BadRequest); }
      shifts := shifts[expected := shifts[expected].(status := Closed(reported, c.actualEndingCash))];
      commands := commands[k := CommandRow(q, ShiftClosed(expected, difference))];
      return Answer(ShiftClosed(expected, difference));
    }

    // ----- invoices.service and cashier-shift-ledger.service -----

    /** `recordCashInvoice`: the ledger row, then the till's balance. */
    method RecordCashInvoice(shift: Id, fund: Id, invoice: Id, amount: Money)
      requires fund < |funds|
      modifies this
      ensures Snapshot() == Post(old(Snapshot()), CashTx(Income, amount, fund, Some(shift), Sale(invoice)))
    {
      txns := txns + [CashTx(Income, amount, fund, Some(shift), Sale(invoice))];
      funds := funds[fund := funds[fund].(balance := funds[fund].balance + amount)];
    }

    method CreateInvoice(total: Money) returns (r: Reply)
      requires Inv(Snapshot())
      modifies this
      ensures Did(old(Snapshot()), IssueInvoice(old(Snapshot()), total), r)
      ensures Kept(old(Snapshot()), r, 0) && funds == old(funds) && txns == old(txns) && shifts == old(shifts)
    {
      hide Inv, Extends, Holdings;
      PaperworkPromise(Snapshot(), InvoiceIssued(total));
      r := Answer(Created(|invoices|));
      invoices := invoices + [Invoice(total, CashPayment, Unpaid, None, None)];
    }

    method Checkout(employee: Employee, total: Money, paidBy: Method, tendered: Option<Money>) returns (r: Reply)
      requires Inv(Snapshot())
      modifies this
      ensures Did(old(Snapshot()), CashTables.Checkout(old(Snapshot()), employee, total, paidBy, tendered), r)
      ensures Kept(old(Snapshot()), r, SaleGain(paidBy, total))
      ensures r.Answer? ==> InvoiceDecided(Snapshot(), |old(invoices)|)
      ensures CheckoutSays(old(Snapshot()), Now(r), employee, total, paidBy, tendered)
    {
      hide Inv, Extends, Holdings, Reconciled, InvoiceDecided, ExpenseDecided, HandoverDecided, HandoverByReference, Eligible, CheckoutSays;
      CheckoutAnswers(Snapshot(), employee, total, paidBy, tendered);
      CheckoutPromises(Snapshot(), employee, total, paidBy, tendered);
      if paidBy == Transfer { return Refusal(BadRequest); }
      if !TenderSufficient(paidBy, tendered, total) { return Refusal(BadRequest); }
      if !HasTill(Snapshot(), employee) || (paidBy == CashPayment && total <= 0) { return Refusal(Conflict); }
      var shift := OpenShiftOf(shifts, employee);
      var id := |invoices|;
      var tx := if paidBy == CashPayment then Some(|txns|) else None;
      invoices := invoices + [Invoice(total, paidBy, Paid, Some(shift), tx)];
      if paidBy == CashPayment {
        RecordCashInvoice(shift, shifts[shift].fund, id, total);
      }
      return Answer(Done);
    }

    method UpdatePayment(id: Id, employee: Employee, paidBy: Method, tendered: Option<Money>) returns (r: Reply)
      requires Inv(Snapshot())
      modifies this
      ensures Did(old(Snapshot()), PayInvoice(old(Snapshot()), id, employee, paidBy, tendered), r)
      ensures Kept(old(Snapshot()), r, if id < |old(invoices)| then SaleGain(paidBy, old(invoices)[id].total) else 0)
      ensures r.Answer? ==> InvoiceDecided(Snapshot(), id)
      ensures PaySays(old(Snapshot()), Now(r), id, employee, paidBy, tendered)
    {
      hide Inv, Extends, Holdings, Reconciled, InvoiceDecided, ExpenseDecided, HandoverDecided, HandoverByReference, Eligible, PaySays;
      PayAnswers(Snapshot(), id, employee, paidBy, tendered);
      PaymentPromises(Snapshot(), id, employee, paidBy, tendered);
      if id >= |invoices| { return Refusal(NotFound); }
      var invoice := invoices[id];
      if invoice.status != Unpaid || paidBy == Transfer { return Refusal(BadRequest); }
      if !TenderSufficient(paidBy, tendered, invoice.total) { return Refusal(BadRequest); }
      if !HasTill(Snapshot(), employee) || (paidBy == CashPayment && invoice.total <= 0) { return Refusal(Conflict); }
      var shift := OpenShiftOf(shifts, employee);
      invoices := invoices[id := invoice.(status := Paid, paidBy := paidBy, shift := Some(shift))];
      if paidBy == CashPayment {
        invoices := invoices[id := invoices[id].(cashTx := Some(|txns|))];
        RecordCashInvoice(shift, shifts[shift].fund, id, invoice.total);
      }
      return Answer(Done);
    }

    method VoidInvoice(id: Id) returns (r: Reply)
      requires Inv(Snapshot())
      modifies this
      ensures Did(old(Snapshot()), CashTables.VoidInvoice(old(Snapshot()), id), r)
      ensures Kept(old(Snapshot()), r, 0)
      ensures r.Answer? ==> InvoiceDecided(Snapshot(), id)
      ensures VoidSays(old(Snapshot()), Now(r), id)
    {
      hide Inv, Extends, Holdings, Reconciled, InvoiceDecided, ExpenseDecided, HandoverDecided, HandoverByReference, Eligible, VoidSays;
      VoidAnswers(Snapshot(), id);
      VoidPromises(Snapshot(), id);
      if id >= |invoices| { return Refusal(NotFound); }
      if invoices[id].status != Unpaid { return Refusal(BadRequest); }
      invoices := invoices[id := invoices[id].(status := Voided)];
      return Answer(Done);
    }

    method CompleteOnlinePayment(id: Id, shift: Id) returns (r: Reply)
      requires Inv(Snapshot())
      modifies this
      ensures Did(old(Snapshot()), CompleteOnline(old(Snapshot()), id, shift), r)
      ensures Kept(old(Snapshot()), r, 0)
      ensures r.Answer? ==> InvoiceDecided(Snapshot(), id)
      ensures OnlineSays(old(Snapshot()), Now(r), id, shift)
    {
      hide Inv, Extends, Holdings, Reconciled, InvoiceDecided, ExpenseDecided, HandoverDecided, HandoverByReference, Eligible, OnlineSays;
      OnlineAnswers(Snapshot(), id, shift);
      OnlinePromises(Snapshot(), id, shift);
      if id >= |invoices| { return Refusal(NotFound); }
      if invoices[id].status != Unpaid { return Refusal(BadRequest); }
      invoices := invoices[id := invoices[id].(status := Paid, paidBy := Transfer, shift := Some(shift))];
      return Answer(Done);
    }

    /** `completeSuccessfulRefund` of a refund through the provider, on the invoice's side. */
    method BookProviderRefund(id: Id, amount: Money) returns (r: Reply)
      requires Inv(Snapshot()) && amount > 0
      modifies this
      ensures Did(old(Snapshot()), CashTables.BookProviderRefund(old(Snapshot()), id, amount), r)
      ensures Kept(old(Snapshot()), r, 0)
      ensures forall s :: 0 <= s < |shifts| && s < |old(shifts)| ==> Reconciled(Snapshot(), s) == old(Reconciled(Snapshot(), s))
      ensures ProviderRefundSays(old(Snapshot()), Now(r), id, amount)
    {
      hide Inv, Extends, Holdings, Reconciled, InvoiceDecided, ExpenseDecided, HandoverDecided, HandoverByReference, Eligible, ProviderRefundSays;
      ProviderRefundAnswers(Snapshot(), id, amount);
      ProviderRefundPromises(Snapshot(), id, amount);
      if id >= |invoices| { return Refusal(NotFound); }
      var invoice := invoices[id];
      if invoice.paidBy != Transfer || (invoice.status != Paid && invoice.status != PartiallyRefunded) { return Refusal(Conflict); }
      var rows := reversals;
      var reversed := 0;
      for i := 0 to |rows|
        invariant Snapshot() == old(Snapshot()) && reversals == rows
        invariant reversed == Total(rows[..i], ReversedOn(id))
      {
        assert rows[..i + 1][..i] == rows[..i];
        if rows[i].invoice == id {
          reversed := reversed + rows[i].amount;
        }
      }
      assert rows[..|rows|] == rows;
      reversed := reversed + amount;
      reversals := reversals + [ProviderRefund(id, amount, invoice.shift)];
      invoices := invoices[id := invoice.(status := if reversed >= invoice.total then Refunded else PartiallyRefunded)];
      return Answer(Created(|reversals| - 1));
    }

    // ----- cash-refunds.service -----

    /** The `CashRefund` aggregate of one invoice. */
    method RefundedSoFar(invoice: Id) returns (sum: int)
      ensures sum == Total(refunds, RefundedOn(invoice))
    {
      sum := 0;
      for i := 0 to |refunds|
        invariant sum == Total(refunds[..i], RefundedOn(invoice))
      {
        assert refunds[..i + 1][..i] == refunds[..i];
        if refunds[i].request.invoice == invoice {
          sum := sum + refunds[i].request.amount;
        }
      }
      assert refunds[..|refunds|] == refunds;
    }

    method RefundInCash(employee: Employee, key: string, request: RefundRequest, expected: Id, handedOff: bool) returns (r: Reply)
      requires Inv(Snapshot()) && request.amount > 0
      modifies this
      ensures Did(old(Snapshot()), RefundCommand(old(Snapshot()), employee, key, request, expected, handedOff), r)
      ensures Kept(old(Snapshot()), r, if RefundKnown(old(Snapshot()), employee, key) then 0 else -request.amount)
      ensures r.Answer? ==> Recorded(Snapshot(), CommandKey(employee, REFUND_COMMAND, key), CashRefundRequest(request, expected), r.response)
      ensures r.Answer? && !RefundKnown(old(Snapshot()), employee, key) ==>
                request.invoice < |invoices|
                && Total(refunds, RefundedOn(request.invoice)) == old(Total(refunds, RefundedOn(request.invoice))) + request.amount
                && Total(refunds, RefundedOn(request.invoice)) <= invoices[request.invoice].total
      ensures RefundSays(old(Snapshot()), Now(r), employee, key, request, expected, handedOff)
    {
      hide Inv, Extends, Holdings, Reconciled, InvoiceDecided, ExpenseDecided, HandoverDecided, HandoverByReference, Eligible, RefundSays;
      RefundAnswers(Snapshot(), employee, key, request, expected, handedOff);
      RefundPromises(Snapshot(), employee, key, request, expected, handedOff);
      var k, q := CommandKey(employee, REFUND_COMMAND, key), CashRefundRequest(request, expected);
      if k in commands { return Replay(commands[k], q); }
      r := PayOutRefund(employee, key, request, expected, handedOff);
      if r.Answer? {
        commands := commands[k := CommandRow(q, r.response)];
      }
    }

    method PayOutRefund(employee: Employee, key: string, request: RefundRequest, expected: Id, handedOff: bool) returns (r: Reply)
      modifies this
      ensures Did(old(Snapshot()), RefundCash(old(Snapshot()), employee, key, request, expected, handedOff), r)
    {
      hide Total, RefundedOn, RefundByKey, SaleOnLedger, OpenShiftOf;
      // The refund row keeps replay protection after the idempotency row is purged.
      var replay := RefundByKey(refunds, employee, key);
      if replay < |refunds| {
        var row := refunds[replay];
        if row.request != request || row.tx >= |txns| || txns[row.tx].shift != Some(expected) { return Refusal(Conflict); }
        return Answer(Created(replay));
      }
      if request.invoice >= |invoices| { return Refusal(NotFound); }
      var invoice := invoices[request.invoice];
      if invoice.paidBy != CashPayment || (invoice.status != Paid && invoice.status != PartiallyRefunded) { return Refusal(Conflict); }
      if !SaleOnLedger(Snapshot(), request.invoice) { return Refusal(Conflict); }
      if !handedOff { return Refusal(Conflict); }
      var sum := RefundedSoFar(request.invoice);
      var refunded := sum + request.amount;
      if refunded > invoice.total { return Refusal(Conflict); }
      if !HasTill(Snapshot(), employee) { return Refusal(Conflict); }
      var shift := OpenShiftOf(shifts, employee);
      if shift != expected { return Refusal(Conflict); }
      var fund := shifts[shift].fund;
      if funds[fund].balance < request.amount { return Refusal(Conflict); }
      funds := funds[fund := funds[fund].(balance := funds[fund].balance - request.amount)];
      var movement := |txns|;
      txns := txns + [CashTx(Expense, request.amount, fund, Some(shift), RefundOf(|refunds|))];
      var response := Created(|refunds|);
      refunds := refunds + [CashRefund(request, employee, key, movement)];
      var status := if refunded == invoice.total then Refunded else PartiallyRefunded;
      invoices := invoices[request.invoice := invoice.(status := status)];
      return Answer(response);
    }

    // ----- cash-handovers.service -----

    method CreateHandover(employee: Employee, shift: Id, destination: Id, retained: Money) returns (r: Reply)
      requires Inv(Snapshot())
      modifies this
      ensures Did(old(Snapshot()), RequestHandover(old(Snapshot()), employee, shift, destination, retained), r)
      ensures Kept(old(Snapshot()), r, 0)
      ensures r.Answer? ==> |handovers| == |old(handovers)| + 1 && shift < |shifts| && var h := handovers[|old(handovers)|];
                h.expected == Reconciled(Snapshot(), shift) && h.transfer + h.retained == h.expected + h.variance
      ensures HandoverSays(old(Snapshot()), Now(r), employee, shift, destination, retained)
    {
      hide Inv, Extends, Holdings, Reconciled, InvoiceDecided, ExpenseDecided, HandoverDecided, HandoverByReference, Eligible, HandoverSays;
      HandoverAnswers(Snapshot(), employee, shift, destination, retained);
      RequestHandoverPromises(Snapshot(), employee, shift, destination, retained);
      if shift >= |shifts| { return Refusal(NotFound); }
      var s := shifts[shift];
      if s.employee != employee { return Refusal(Forbidden); }
      if s.status == ShiftStatus.Open || s.fund >= |funds| { return Refusal(Conflict); }
      if funds[s.fund].deleted || funds[s.fund].kind != Cash { return Refusal(Conflict); }
      if s.fund == destination { return Refusal(Conflict); }
      if destination >= |funds| || funds[destination].deleted { return Refusal(NotFound); }
      if FundsBusy(Snapshot(), s.fund, destination) { return Refusal(Conflict); }
      var actual, reported := s.status.actual, s.status.reported;
      if funds[s.fund].balance != actual { return Refusal(Conflict); }
      if retained >= reported { return Refusal(Conflict); }
      // The unique index on a shift's pending or approved handover.
      if ShiftHasActiveHandover(handovers, shift) { return Refusal(Conflict); }
      r := Answer(Created(|handovers|));
      handovers := handovers + [Handover(shift, s.fund, destination, employee, actual, reported, reported - actual, retained,
                                         reported - retained, Pending, NotRequired, None, None, None, None, None)];
    }

    /** `postDestinationEntry`. */
    method PostDestinationEntry(id: Id, h: Handover) returns (tx: Id)
      requires h.destination < |funds|
      modifies this
      ensures tx == |old(txns)| && Snapshot() == Post(old(Snapshot()), IncomingRow(id, h))
    {
      funds := funds[h.destination := funds[h.destination].(balance := funds[h.destination].balance + h.transfer)];
      tx := |txns|;
      txns := txns + [CashTx(Income, h.transfer, h.destination, None, Incoming(id))];
    }

    /** The rows of an approval on the source fund. */
    method PostSourceEntries(id: Id, h: Handover) returns (varianceTx: Option<Id>, sourceTx: Id)
      modifies `txns
      ensures txns == old(txns) + VarianceRow(id, h) + [OutgoingRow(id, h)]
      ensures varianceTx == (if VarianceRow(id, h) == [] then None else Some(|old(txns)|)) && sourceTx == |old(txns)| + |VarianceRow(id, h)|
    {
      varianceTx := None;
      if h.variance != 0 {
        varianceTx := Some(|txns|);
        txns := txns + [CashTx(if h.variance > 0 then Income else Expense, Abs(h.variance), h.source, None, Variance(id))];
      }
      sourceTx := |txns|;
      txns := txns + [CashTx(Expense, h.transfer, h.source, None, Outgoing(id))];
    }

    method Approve(id: Id, employee: Employee) returns (r: Reply)
      requires Inv(Snapshot())
      modifies this
      ensures Did(old(Snapshot()), ApproveHandover(old(Snapshot()), id, employee), r)
      ensures Kept(old(Snapshot()), r, if id < |old(handovers)| then old(handovers)[id].variance else 0)
      ensures r.Answer? ==> id < |handovers| && HandoverDecided(Snapshot(), id)
                            && Total(txns, Tagged(Outgoing(id))) == 1 && Total(txns, Tagged(Incoming(id))) == CreditsDue(handovers[id])
      ensures ApproveSays(old(Snapshot()), Now(r), id, employee)
    {
      hide Inv, Extends, Holdings, Reconciled, InvoiceDecided, ExpenseDecided, HandoverDecided, HandoverByReference, Eligible, ApproveSays;
      hide FundsBusy, CreditsDue, Total, Tagged, VarianceRow, OutgoingRow, IncomingRow, Abs;
      ApproveAnswers(Snapshot(), id, employee);
      ApprovalPromises(Snapshot(), id, employee);
      if id >= |handovers| { return Refusal(NotFound); }
      var h := handovers[id];
      if h.status != Pending { return Refusal(Conflict); }
      if h.requestedBy == employee { return Refusal(Forbidden); }
      if h.source >= |funds| || h.destination >= |funds| { return Refusal(Conflict); }
      if funds[h.source].deleted || funds[h.source].kind != Cash || funds[h.destination].deleted { return Refusal(Conflict); }
      if FundsBusy(Snapshot(), h.source, h.destination) { return Refusal(Conflict); }
      if funds[h.source].balance != h.expected { return Refusal(Conflict); }
      var requiresSettlement := funds[h.destination].kind == Bank;
      funds := funds[h.source := funds[h.source].(balance := h.retained)];
      var varianceTx, sourceTx := PostSourceEntries(id, h);
      var approved := h.(status := Approved, sourceTx := Some(sourceTx), varianceTx := varianceTx);
      if requiresSettlement {
        handovers := handovers[id := approved.(settlement := AwaitingBank)];
      } else {
        var tx := PostDestinationEntry(id, h);
        handovers := handovers[id := approved.(settlement := NotRequired, destinationTx := Some(tx))];
      }
      return Answer(Done);
    }

    method Decline(id: Id, employee: Employee, status: RequestStatus) returns (r: Reply)
      requires Inv(Snapshot())
      modifies this
      ensures Did(old(Snapshot()), DeclineHandover(old(Snapshot()), id, employee, status), r)
      ensures Kept(old(Snapshot()), r, 0)
      ensures r.Answer? ==> HandoverDecided(Snapshot(), id)
      ensures DeclineSays(old(Snapshot()), Now(r), id, employee, status)
    {
      hide Inv, Extends, Holdings, Reconciled, InvoiceDecided, ExpenseDecided, HandoverDecided, HandoverByReference, Eligible, DeclineSays;
      DeclineAnswers(Snapshot(), id, employee, status);
      DeclinePromises(Snapshot(), id, employee, status);
      if id >= |handovers| { return Refusal(NotFound); }
      if handovers[id].status != Pending { return Refusal(Conflict); }
      if status == Rejected && handovers[id].requestedBy == employee { return Refusal(Forbidden); }
      if status == Cancelled && handovers[id].requestedBy != employee { return Refusal(Forbidden); }
      if status != Rejected && status != Cancelled { return Refusal(BadRequest); }
      handovers := handovers[id := handovers[id].(status := status)];
      return Answer(Done);
    }

    method SettleInTransaction(id: Id, employee: Employee, reference: string, evidence: string) returns (r: Reply)
      requires Inv(Snapshot())
      modifies this
      ensures Did(old(Snapshot()), Settle(old(Snapshot()), id, employee, reference, evidence), r)
      ensures Kept(old(Snapshot()), r, 0)
      ensures r.Answer? ==> id < |handovers| && Total(txns, Tagged(Incoming(id))) == 1 && HandoverByReference(handovers, handovers[id].destination, reference) == id
      ensures SettleSays(old(Snapshot()), Now(r), id, employee, reference, evidence)
    {
      hide Inv, Extends, Holdings, HandoverByReference, SettleSays;
      SettleAnswers(Snapshot(), id, employee, reference, evidence);
      SettlementPromises(Snapshot(), id, employee, reference, evidence);
      if id >= |handovers| { return Refusal(NotFound); }
      var h := handovers[id];
      if h.status != Approved || h.settlement != AwaitingBank { return Refusal(Conflict); }
      if h.requestedBy == employee { return Refusal(Forbidden); }
      if h.destination >= |funds| || funds[h.destination].deleted || funds[h.destination].kind != Bank { return Refusal(Conflict); }
      if (h.bankRef.Some? && h.bankRef.value != reference) || (h.evidence.Some? && h.evidence.value != evidence) {
        return Refusal(Conflict);
      }
      // The unique index on destination fund and bank reference.
      if ReferenceTaken(handovers, id, h.destination, reference) { return Refusal(Conflict); }
      var tx := PostDestinationEntry(id, h);
      handovers := handovers[id := h.(settlement := Settled, bankRef := Some(reference), evidence := Some(evidence),
                                      destinationTx := Some(tx))];
      return Answer(Done);
    }

    method RegisterDeposit(id: Id, employee: Employee, reference: string, evidence: string) returns (r: Reply)
      requires Inv(Snapshot())
      modifies this
      ensures Did(old(Snapshot()), CashTables.RegisterDeposit(old(Snapshot()), id, employee, reference, evidence), r)
      ensures Kept(old(Snapshot()), r, 0)
      ensures r.Answer? ==> id < |handovers| && HandoverByReference(handovers, handovers[id].destination, reference) == id
      ensures DepositSays(old(Snapshot()), Now(r), id, employee, reference, evidence)
    {
      hide Inv, Extends, Holdings, HandoverByReference, DepositSays;
      DepositAnswers(Snapshot(), id, employee, reference, evidence);
      DepositPromises(Snapshot(), id, employee, reference, evidence);
      if id >= |handovers| { return Refusal(NotFound); }
      var h := handovers[id];
      if h.status != Approved || h.settlement != AwaitingBank { return Refusal(Conflict); }
      if h.requestedBy != employee { return Refusal(Forbidden); }
      if h.destination >= |funds| || funds[h.destination].deleted || funds[h.destination].kind != Bank { return Refusal(Conflict); }
      if h.bankRef.Some? || h.evidence.Some? {
        if h.bankRef == Some(reference) && h.evidence == Some(evidence) { return Answer(Done); }
        return Refusal(Conflict);
      }
      if ReferenceTaken(handovers, id, h.destination, reference) { return Refusal(Conflict); }
      handovers := handovers[id := h.(bankRef := Some(reference), evidence := Some(evidence))];
      return Answer(Done);
    }

    // ----- bank-reconciliation.service -----

    static method EntriesOf(statement: Id, fund: Id, lines: seq<Line>) returns (created: seq<Entry>)
      ensures created == NewEntries(statement, fund, lines)
    {
      created := [];
      for i := 0 to |lines|
        invariant created == NewEntries(statement, fund, lines)[..i]
      {
        created := created + [Entry(statement, fund, lines[i], if lines[i].credit then Unmatched else Ignored)];
      }
    }

    method CreateImport(fund: Id, lines: seq<Line>) returns (r: Reply)
      requires Inv(Snapshot())
      modifies this
      ensures Did(old(Snapshot()), ImportStatement(old(Snapshot()), fund, lines), r)
      ensures Kept(old(Snapshot()), r, 0)
      ensures r.Answer? && lines != [] ==> ImportStatement(Snapshot(), fund, lines).Fail?
      ensures ImportSays(old(Snapshot()), Now(r), fund, lines)
    {
      hide Inv, Extends, Holdings, Reconciled, InvoiceDecided, ExpenseDecided, HandoverDecided, HandoverByReference, Eligible, ImportSays;
      ImportAnswers(Snapshot(), fund, lines);
      ImportPromises(Snapshot(), fund, lines);
      if fund >= |funds| { return Refusal(NotFound); }
      if !DistinctIds(lines) { return Refusal(Conflict); }
      // The unique index on fund and external identifier.
      if exists l, e :: 0 <= l < |lines| && 0 <= e < |entries| && entries[e].fund == fund && entries[e].line.externalId == lines[l].externalId {
        return Refusal(Conflict);
      }
      var created := EntriesOf(|statements|, fund, lines);
      r := Answer(Created(|statements|));
      entries := entries + created;
      statements := statements + [fund];
    }

    /** A conditional update: only an unmatched or mismatched entry changes. */
    method UpdateMatch(id: Id, m: Match)
      requires id < |entries|
      modifies this
      ensures Snapshot() == Remark(old(Snapshot()), id, m)
    {
      if OpenMatch(entries[id].matching) {
        entries := entries[id := entries[id].(matching := m)];
      }
    }

    method ReconcileOne(id: Id, employee: Employee) returns (r: Reply)
      requires Inv(Snapshot())
      modifies this
      ensures Did(old(Snapshot()), ReconcileEntry(old(Snapshot()), id, employee), r)
      ensures Kept(old(Snapshot()), r, 0)
      ensures r.Answer? ==> id < |entries| && id < |old(entries)| && forall h :: OpenMatch(old(entries)[id].matching) ==>
                (entries[id].matching == Matched(h) <==> Eligible(old(Snapshot()), id, h))
      ensures ReconcileSays(old(Snapshot()), Now(r), id, employee)
    {
      hide Inv, Extends, Holdings, Eligible, Settle, ReconcileSays;
      ReconcileAnswers(Snapshot(), id, employee);
      ReconciliationPromises(Snapshot(), id, employee);
      if id >= |entries| { return Refusal(NotFound); }
      var e := entries[id];
      if !OpenMatch(e.matching) { return Answer(Done); }
      if e.line.bankRef == None { UpdateMatch(id, Unmatched); return Answer(Done); }
      var h := HandoverByReference(handovers, e.fund, e.line.bankRef.value);
      if h == |handovers| { UpdateMatch(id, Unmatched); return Answer(Done); }
      var handover := handovers[h];
      if handover.transfer != e.line.amount { UpdateMatch(id, Mismatch); return Answer(Done); }
      if handover.status != Approved || handover.settlement == NotRequired { UpdateMatch(id, Mismatch); return Answer(Done); }
      if MatchedElsewhere(entries, id, h) { UpdateMatch(id, Mismatch); return Answer(Done); }
      if handover.evidence == None { UpdateMatch(id, Mismatch); return Answer(Done); }
      if handover.settlement == AwaitingBank {
        SettleLeavesEntries(Snapshot(), h, employee, e.line.bankRef.value, handover.evidence.value);
        r := SettleInTransaction(h, employee, e.line.bankRef.value, handover.evidence.value);
        if r.Refusal? { return; }
      }
      UpdateMatch(id, Matched(h));
      return Answer(Done);
    }

    /** One candidate of a batch: its transaction, and when that failed the mark for manual review. */
    method ReconcileAndMark(id: Id, employee: Employee)
      requires Inv(Snapshot())
      modifies this
      ensures Snapshot() == ReconcileOrMark(old(Snapshot()), id, employee)
      ensures Inv(Snapshot()) && Extends(old(Snapshot()), Snapshot()) && Holdings(Snapshot()) == old(Holdings(Snapshot()))
    {
      hide Inv, Extends, Holdings, ReconcileEntry, Eligible;
      MarkPromises(Snapshot(), id);
      var r := ReconcileOne(id, employee);
      if r.Refusal? && id < |entries| {
        UpdateMatch(id, Mismatch);
      }
    }

    /** `reconcile` over a batch of candidates, each in its own transaction; when one fails, its entry
        is marked for manual review and the loop goes on. */
    method Reconcile(batch: seq<Id>, employee: Employee)
      requires Inv(Snapshot())
      modifies this
      ensures Snapshot() == ReconcileAll(old(Snapshot()), batch, employee)
      ensures Inv(Snapshot()) && Extends(old(Snapshot()), Snapshot()) && Holdings(Snapshot()) == old(Holdings(Snapshot()))
    {
      hide Inv, Extends, Holdings, ReconcileOrMark;
      RunExtends(Snapshot(), []);
      for i := 0 to |batch|
        invariant Snapshot() == ReconcileAll(old(Snapshot()), batch[..i], employee)
        invariant Inv(Snapshot()) && Extends(old(Snapshot()), Snapshot()) && Holdings(Snapshot()) == old(Holdings(Snapshot()))
      {
        assert batch[..i + 1][..i] == batch[..i];
        ghost var before := Snapshot();
        ReconcileAndMark(batch[i], employee);
        ExtendsTransitive(old(Snapshot()), before, Snapshot());
      }
      assert batch[..|batch|] == batch;
    }

    method IgnoreEntry(id: Id) returns (r: Reply)
      requires Inv(Snapshot())
      modifies this
      ensures Did(old(Snapshot()), CashTables.IgnoreEntry(old(Snapshot()), id), r)
      ensures Kept(old(Snapshot()), r, 0)
      ensures r.Answer? ==> forall other :: ReconcileEntry(Snapshot(), id, other) == Ok(Snapshot(), Done)
      ensures IgnoreSays(old(Snapshot()), Now(r), id)
    {
      hide Inv, Extends, Holdings, Reconciled, InvoiceDecided, ExpenseDecided, HandoverDecided, HandoverByReference, Eligible, IgnoreSays;
      IgnoreAnswers(Snapshot(), id);
      IgnorePromises(Snapshot(), id);
      if id >= |entries| { return Refusal(NotFound); }
      if entries[id].matching.Matched? { return Refusal(Conflict); }
      UpdateMatch(id, Ignored);
      return Answer(Done);
    }
  }
}

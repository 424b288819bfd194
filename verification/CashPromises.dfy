/** What a caller at the cash desk may rely on, transaction by transaction: the ledger invariant stays, nothing
    durable is taken back, and what the shop owns changes by exactly the amount the transaction is about. */
module CashPromises {
  import opened Sums
  import opened CashTables
  import opened CashLedger
  import opened CashRuns

  /** What the shop owns: the balances of its funds and what is on its way to the bank. */
  function Holdings(db: Db): int {
    Total(db.funds, Balance()) + Total(db.handovers, InTransit())
  }

  ghost predicate Promise(before: Db, o: Outcome, gain: int) {
    && Extends(before, before)
    && (o.Ok? ==> Inv(o.db) && Extends(before, o.db) && Holdings(o.db) == Holdings(before) + gain)
  }

  predicate SameOpenings(before: seq<Fund>, after: seq<Fund>) {
    |after| == |before| && forall f :: 0 <= f < |before| ==> after[f].opening == before[f].opening
  }

  /** The rows a transaction adds to the ledger. */
  predicate Adds(before: Db, o: Outcome, rows: seq<CashTx>) {
    o.Ok? ==> o.db.txns == before.txns + rows && SameOpenings(before.funds, o.db.funds)
  }

  /** By the invariant, what the shop owns is a matter of its opening balances and its ledger alone. */
  lemma RowsDecide(before: Db, e: Event, rows: seq<CashTx>)
    requires Inv(before) && Admissible(e) && Adds(before, Step(before, e), rows)
    ensures Promise(before, Step(before, e), Total(rows, External()))
  {
    StepKeeps(before, e);
    StepAppends(before, e);
    RunExtends(before, []);
    hide Step;
    var o := Step(before, e);
    if o.Ok? {
      TotalConcat(before.txns, rows, External());
      TotalsAgree(before.funds, o.db.funds, Opening(), Opening());
    }
  }

  lemma NoRows()
    ensures Total<CashTx>([], External()) == 0
  {
  }

  lemma OneRow(t: CashTx)
    ensures Total([t], External()) == External()(t)
  {
    assert [t][..0] == [];
  }

  predicate IsPaperwork(e: Event) {
    e.FundRetyped? || e.FundRemoved? || e.ExpenseResolution? || e.InvoiceIssued? || e.InvoiceVoided? || e.OnlinePayment?
    || e.ProviderRefunded? || e.HandoverRequested? || e.HandoverDeclined? || e.DepositRegistered? || e.StatementImported?
    || e.EntryMarked? || e.EntryIgnored? || e.ShiftOpening? || e.ShiftClosing?
  }

  lemma PaperworkAdds(db: Db, e: Event)
    requires IsPaperwork(e)
    ensures Adds(db, Step(db, e), [])
  {
    assert db.txns + [] == db.txns;
  }

  /** Transactions that move no money. */
  lemma PaperworkPromise(db: Db, e: Event)
    requires Inv(db) && IsPaperwork(e) && Admissible(e)
    ensures Promise(db, Step(db, e), 0)
  {
    hide Inv, Extends, Step;
    PaperworkAdds(db, e);
    RowsDecide(db, e, []);
    NoRows();
  }

  lemma CreateFundPromise(db: Db, kind: FundType, opening: Money)
    requires Inv(db)
    ensures Promise(db, CreateFund(db, kind, opening), opening)
  {
    var e := FundCreated(kind, opening);
    StepKeeps(db, e);
    StepAppends(db, e);
    RunExtends(db, []);
    TotalAppend(db.funds, Fund(kind, opening, opening, false), Balance());
    hide Inv, Extends;
  }

  /** A movement moves its amount, unless its key was used before or a manager has to approve it. */
  function MovementGain(db: Db, employee: Employee, key: string, flow: Flow, amount: Money, threshold: Money): int {
    if CommandKey(employee, MOVEMENT_COMMAND, key) in db.commands || (flow == Expense && amount >= threshold) then 0
    else if flow == Income then amount else 0 - amount
  }

  lemma MovementAdds(db: Db, employee: Employee, key: string, shift: Id, flow: Flow, amount: Money, threshold: Money)
    ensures var o := MovementCommand(db, employee, key, shift, flow, amount, threshold);
            if CommandKey(employee, MOVEMENT_COMMAND, key) in db.commands || (flow == Expense && amount >= threshold) then Adds(db, o, [])
            else o.Ok? ==> shift < |db.shifts| && Adds(db, o, [CashTx(flow, amount, db.shifts[shift].fund, Some(shift), Manual)])
  {
    assert db.txns + [] == db.txns;
  }

  lemma MovementPromise(db: Db, employee: Employee, key: string, shift: Id, flow: Flow, amount: Money, threshold: Money)
    requires Inv(db) && amount > 0
    ensures Promise(db, MovementCommand(db, employee, key, shift, flow, amount, threshold), MovementGain(db, employee, key, flow, amount, threshold))
  {
    hide Inv, Extends, MovementCommand;
    var e := Movement(employee, key, shift, flow, amount, threshold);
    MovementAdds(db, employee, key, shift, flow, amount, threshold);
    NoRows();
    var o := MovementCommand(db, employee, key, shift, flow, amount, threshold);
    if Adds(db, o, []) {
      RowsDecide(db, e, []);
    }
    if o.Ok? && shift < |db.shifts| {
      var t := CashTx(flow, amount, db.shifts[shift].fund, Some(shift), Manual);
      OneRow(t);
      if Adds(db, o, [t]) {
        RowsDecide(db, e, [t]);
      }
    }
    RunExtends(db, []);
  }

  lemma ExpenseAdds(db: Db, id: Id, employee: Employee)
    requires id < |db.requests|
    ensures var r := db.requests[id];
            Adds(db, ApproveExpense(db, id, employee), [CashTx(Expense, r.amount, r.fund, Some(r.shift), Manual)])
    ensures Step(db, ExpenseApproval(id, employee)) == ApproveExpense(db, id, employee)
  {
  }

  lemma ExpensePromise(db: Db, id: Id, employee: Employee)
    requires Inv(db)
    ensures Promise(db, ApproveExpense(db, id, employee), if id < |db.requests| then -db.requests[id].amount else 0)
  {
    RunExtends(db, []);
    if id < |db.requests| {
      ExpenseAdds(db, id, employee);
      hide Inv, Extends, ApproveExpense, Step, Adds;
      var r := db.requests[id];
      var t := CashTx(Expense, r.amount, r.fund, Some(r.shift), Manual);
      OneRow(t);
      RowsDecide(db, ExpenseApproval(id, employee), [t]);
    }
  }

  function SaleGain(paidBy: Method, total: int): int { if paidBy == CashPayment then total else 0 }

  lemma PayAdds(db: Db, id: Id, employee: Employee, paidBy: Method, tendered: Option<Money>)
    requires id < |db.invoices|
    ensures var o := Pay(db, id, employee, paidBy, tendered); var s := OpenShiftOf(db.shifts, employee);
            o.Ok? ==> s < |db.shifts|
                      && Adds(db, o, if paidBy == CashPayment then [CashTx(Income, db.invoices[id].total, db.shifts[s].fund, Some(s), Sale(id))] else [])
  {
    assert db.txns + [] == db.txns;
  }

  lemma SaleRows(paidBy: Method, t: CashTx)
    requires t.purpose.Sale? && t.flow == Income
    ensures Total(if paidBy == CashPayment then [t] else [], External()) == SaleGain(paidBy, t.amount)
  {
    OneRow(t);
  }

  lemma PaymentIsPay(db: Db, id: Id, employee: Employee, paidBy: Method, tendered: Option<Money>)
    ensures Step(db, InvoicePayment(id, employee, paidBy, tendered)) == PayInvoice(db, id, employee, paidBy, tendered)
    ensures PayInvoice(db, id, employee, paidBy, tendered).Ok? ==>
              id < |db.invoices| && PayInvoice(db, id, employee, paidBy, tendered) == Pay(db, id, employee, paidBy, tendered)
  {
    hide Pay;
  }

  lemma PaymentPromise(db: Db, id: Id, employee: Employee, paidBy: Method, tendered: Option<Money>)
    requires Inv(db)
    ensures Promise(db, PayInvoice(db, id, employee, paidBy, tendered), if id < |db.invoices| then SaleGain(paidBy, db.invoices[id].total) else 0)
  {
    hide Inv, Extends, Pay, PayInvoice, Adds, Step, External;
    RunExtends(db, []);
    PaymentIsPay(db, id, employee, paidBy, tendered);
    if PayInvoice(db, id, employee, paidBy, tendered).Ok? {
      PayAdds(db, id, employee, paidBy, tendered);
      var s := OpenShiftOf(db.shifts, employee);
      var t := CashTx(Income, db.invoices[id].total, db.shifts[s].fund, Some(s), Sale(id));
      SaleRows(paidBy, t);
      RowsDecide(db, InvoicePayment(id, employee, paidBy, tendered), if paidBy == CashPayment then [t] else []);
    }
  }

  lemma CheckoutIsPay(db: Db, employee: Employee, total: Money, paidBy: Method, tendered: Option<Money>)
    ensures Step(db, InvoiceCheckout(employee, total, paidBy, tendered)) == Checkout(db, employee, total, paidBy, tendered)
    ensures var issued := IssueInvoice(db, total).db; var o := Checkout(db, employee, total, paidBy, tendered);
            && |issued.invoices| == |db.invoices| + 1 && issued == db.(invoices := issued.invoices) && issued.invoices[|db.invoices|].total == total
            && (o.Ok? ==> o == Pay(issued, |db.invoices|, employee, paidBy, tendered))
  {
    hide Pay;
  }

  lemma CheckoutPromise(db: Db, employee: Employee, total: Money, paidBy: Method, tendered: Option<Money>)
    requires Inv(db)
    ensures Promise(db, Checkout(db, employee, total, paidBy, tendered), SaleGain(paidBy, total))
  {
    hide Inv, Extends, Pay, Checkout, Step, External;
    RunExtends(db, []);
    CheckoutIsPay(db, employee, total, paidBy, tendered);
    if Checkout(db, employee, total, paidBy, tendered).Ok? {
      PayAdds(IssueInvoice(db, total).db, |db.invoices|, employee, paidBy, tendered);
      var s := OpenShiftOf(db.shifts, employee);
      var t := CashTx(Income, total, db.shifts[s].fund, Some(s), Sale(|db.invoices|));
      SaleRows(paidBy, t);
      RowsDecide(db, InvoiceCheckout(employee, total, paidBy, tendered), if paidBy == CashPayment then [t] else []);
    }
  }

  /** The key of a refund was used before: by a recorded command, or by a refund whose record is purged. */
  predicate RefundKnown(db: Db, employee: Employee, key: string) {
    CommandKey(employee, REFUND_COMMAND, key) in db.commands || RefundByKey(db.refunds, employee, key) < |db.refunds|
  }

  lemma KnownRefundAdds(db: Db, employee: Employee, key: string, request: RefundRequest, shift: Id, handedOff: bool)
    requires RefundKnown(db, employee, key)
    ensures Adds(db, RefundCommand(db, employee, key, request, shift, handedOff), [])
  {
    assert db.txns + [] == db.txns;
  }

  lemma NewRefundAdds(db: Db, employee: Employee, key: string, request: RefundRequest, shift: Id, handedOff: bool)
    requires !RefundKnown(db, employee, key)
    ensures var o := RefundCommand(db, employee, key, request, shift, handedOff);
            o.Ok? ==> shift < |db.shifts|
                      && Adds(db, o, [CashTx(Expense, request.amount, db.shifts[shift].fund, Some(shift), RefundOf(|db.refunds|))])
  {
  }

  /** A refund pays its amount out, unless its key was used before. */
  lemma RefundPromise(db: Db, employee: Employee, key: string, request: RefundRequest, shift: Id, handedOff: bool)
    requires Inv(db) && request.amount > 0
    ensures Promise(db, RefundCommand(db, employee, key, request, shift, handedOff),
                    if RefundKnown(db, employee, key) then 0 else -request.amount)
  {
    hide Inv, Extends, RefundCommand, RefundKnown, Adds;
    RunExtends(db, []);
    var e := Refunding(employee, key, request, shift, handedOff);
    if RefundKnown(db, employee, key) {
      KnownRefundAdds(db, employee, key, request, shift, handedOff);
      NoRows();
      RowsDecide(db, e, []);
    } else if RefundCommand(db, employee, key, request, shift, handedOff).Ok? {
      NewRefundAdds(db, employee, key, request, shift, handedOff);
      var t := CashTx(Expense, request.amount, db.shifts[shift].fund, Some(shift), RefundOf(|db.refunds|));
      OneRow(t);
      RowsDecide(db, e, [t]);
    }
  }

  lemma ApprovalAdds(db: Db, id: Id, employee: Employee)
    requires id < |db.handovers|
    ensures var o := ApproveHandover(db, id, employee); var h := db.handovers[id];
            o.Ok? ==> h.destination < |db.funds|
                      && Adds(db, o, VarianceRow(id, h) + [OutgoingRow(id, h)]
                                     + if db.funds[h.destination].kind == Bank then [] else [IncomingRow(id, h)])
  {
  }

  lemma ApprovalRows(id: Id, h: Handover, bank: bool)
    ensures Total(VarianceRow(id, h) + [OutgoingRow(id, h)] + if bank then [] else [IncomingRow(id, h)], External()) == h.variance
  {
    OneRow(OutgoingRow(id, h));
    OneRow(IncomingRow(id, h));
    var rows := VarianceRow(id, h);
    if rows != [] {
      OneRow(rows[0]);
      assert rows == [rows[0]];
    }
    NoRows();
    TotalConcat(rows, [OutgoingRow(id, h)], External());
    TotalConcat(rows + [OutgoingRow(id, h)], if bank then [] else [IncomingRow(id, h)], External());
  }

  /** An approval is worth the counting variance: the cash itself only moves inside the shop. */
  lemma ApprovalPromise(db: Db, id: Id, employee: Employee)
    requires Inv(db)
    ensures Promise(db, ApproveHandover(db, id, employee), if id < |db.handovers| then db.handovers[id].variance else 0)
  {
    hide Inv, Extends, Step, ApproveHandover;
    RunExtends(db, []);
    if id < |db.handovers| && ApproveHandover(db, id, employee).Ok? {
      var h := db.handovers[id];
      ApprovalAdds(db, id, employee);
      var bank := db.funds[h.destination].kind == Bank;
      ApprovalRows(id, h, bank);
      ApprovalIsStep(db, id, employee);
      RowsDecide(db, HandoverApproved(id, employee), VarianceRow(id, h) + [OutgoingRow(id, h)] + if bank then [] else [IncomingRow(id, h)]);
    } else {
      ApprovalRefused(db, id, employee);
    }
  }

  lemma ApprovalIsStep(db: Db, id: Id, employee: Employee)
    ensures Step(db, HandoverApproved(id, employee)) == ApproveHandover(db, id, employee)
  {
  }

  lemma ApprovalRefused(db: Db, id: Id, employee: Employee)
    ensures id >= |db.handovers| ==> ApproveHandover(db, id, employee).Fail?
  {
  }

  lemma SettleAdds(db: Db, id: Id, employee: Employee, reference: string, evidence: string)
    ensures var o := Settle(db, id, employee, reference, evidence);
            o.Ok? ==> id < |db.handovers| && Adds(db, o, [IncomingRow(id, db.handovers[id])])
  {
  }

  /** A settlement moves what was on its way into the bank fund. */
  lemma SettlePromise(db: Db, id: Id, employee: Employee, reference: string, evidence: string)
    requires Inv(db)
    ensures Promise(db, Settle(db, id, employee, reference, evidence), 0)
  {
    RunExtends(db, []);
    SettleAdds(db, id, employee, reference, evidence);
    hide Inv, Extends, Settle, Adds;
    if Settle(db, id, employee, reference, evidence).Ok? {
      OneRow(IncomingRow(id, db.handovers[id]));
      RowsDecide(db, HandoverSettled(id, employee, reference, evidence), [IncomingRow(id, db.handovers[id])]);
    }
  }

  lemma ReconcileAdds(db: Db, id: Id, employee: Employee)
    ensures var o := ReconcileEntry(db, id, employee);
            Adds(db, o, []) || exists h :: 0 <= h < |db.handovers| && Adds(db, o, [IncomingRow(h, db.handovers[h])])
  {
    var o := ReconcileEntry(db, id, employee);
    assert db.txns + [] == db.txns;
    if o.Ok? && o.db.txns != db.txns {
      var e := db.entries[id];
      var h := HandoverByReference(db.handovers, e.fund, e.line.bankRef.value);
      SettleAdds(db, h, employee, e.line.bankRef.value, db.handovers[h].evidence.value);
      hide Settle;
      assert Adds(db, o, [IncomingRow(h, db.handovers[h])]);
    }
  }

  lemma ReconcilePromise(db: Db, id: Id, employee: Employee)
    requires Inv(db)
    ensures Promise(db, ReconcileEntry(db, id, employee), 0)
  {
    hide Inv, Extends, ReconcileEntry, Adds;
    var o := ReconcileEntry(db, id, employee);
    ReconcileAdds(db, id, employee);
    if Adds(db, o, []) {
      NoRows();
      RowsDecide(db, EntryReconciled(id, employee), []);
    } else {
      var h :| 0 <= h < |db.handovers| && Adds(db, o, [IncomingRow(h, db.handovers[h])]);
      OneRow(IncomingRow(h, db.handovers[h]));
      RowsDecide(db, EntryReconciled(id, employee), [IncomingRow(h, db.handovers[h])]);
    }
  }

  // ----- once is enough -----

  /** The command is on record with this request and answer. */
  predicate Recorded(db: Db, key: CommandKey, request: Request, response: Response) {
    key in db.commands && db.commands[key] == CommandRow(request, response)
  }

  /** Repeating a recorded command changes nothing and gives the same answer. */
  lemma RecordedIsReplayed(db: Db, key: CommandKey, request: Request, response: Response, operation: Db -> Outcome)
    requires Recorded(db, key, request, response)
    ensures Execute(db, key, request, operation) == Ok(db, response)
  {
  }

  /** An invoice that is no longer unpaid is neither paid nor voided again. */
  lemma InvoiceIsDecidedOnce(db: Db, id: Id, other: Employee, paidBy: Method, tendered: Option<Money>, shift: Id)
    requires id < |db.invoices| && db.invoices[id].status != Unpaid
    ensures PayInvoice(db, id, other, paidBy, tendered).Fail? && VoidInvoice(db, id).Fail? && CompleteOnline(db, id, shift).Fail?
  {
  }

  ghost predicate InvoiceDecided(db: Db, id: Id) {
    && id < |db.invoices| && VoidInvoice(db, id).Fail? && (forall shift :: CompleteOnline(db, id, shift).Fail?)
    && forall other, paidBy, tendered :: PayInvoice(db, id, other, paidBy, tendered).Fail?
  }

  ghost predicate ExpenseDecided(db: Db, id: Id) {
    (forall other :: ApproveExpense(db, id, other).Fail?) && forall other, status :: ResolveExpense(db, id, other, status).Fail?
  }

  ghost predicate HandoverDecided(db: Db, id: Id) {
    (forall other :: ApproveHandover(db, id, other).Fail?) && forall other, status :: DeclineHandover(db, id, other, status).Fail?
  }

  lemma InvoiceStaysDecided(db: Db, id: Id)
    requires id < |db.invoices| && db.invoices[id].status != Unpaid
    ensures InvoiceDecided(db, id)
  {
    forall other, paidBy, tendered ensures PayInvoice(db, id, other, paidBy, tendered).Fail? {
      InvoiceIsDecidedOnce(db, id, other, paidBy, tendered, 0);
    }
  }

  lemma ExpenseStaysDecided(db: Db, id: Id)
    requires id < |db.requests| && db.requests[id].status != Pending
    ensures ExpenseDecided(db, id)
  {
  }

  lemma HandoverStaysDecided(db: Db, id: Id)
    requires id < |db.handovers| && db.handovers[id].status != Pending
    ensures HandoverDecided(db, id)
  {
  }

  // ----- what the single transactions promise beyond that -----

  /** A fund can only be removed when everything that ever entered it has left it. */
  lemma RemovedFundIsEmpty(db: Db, fund: Id)
    requires Inv(db) && CashTables.RemoveFund(db, fund).Ok?
    ensures db.funds[fund].opening + Total(db.txns, FlowOf(fund)) == 0
  {
    assert FundOk(db.funds[fund], fund, db.txns);
  }

  /** A shift starts reconciled to its till. */
  lemma NewShiftIsReconciled(db: Db, employee: Employee, fund: Id, cash: Money)
    requires Inv(db) && OpenShift(db, employee, fund, cash).Ok?
    ensures var d := OpenShift(db, employee, fund, cash).db; Reconciled(d, |db.shifts|) == db.funds[fund].balance
  {
    NothingBookedYet(db, |db.shifts|);
  }

  /** A closed shift holds what its till holds. */
  lemma ClosingStoresTheTill(db: Db, employee: Employee, s: Id, reported: Money, hasNote: bool, note: Money, payments: nat, sessions: nat)
    requires Inv(db)
    ensures var o := CloseShift(db, employee, s, reported, hasNote, note, payments, sessions);
            o.Ok? ==> s < |db.shifts| && db.shifts[s].fund < |db.funds|
                      && o.db.shifts[s].status == Closed(reported, db.funds[db.shifts[s].fund].balance)
  {
    if CloseShift(db, employee, s, reported, hasNote, note, payments, sessions).Ok? {
      CloseShiftKeeps(db, employee, s, reported, hasNote, note, payments, sessions);
      assert ShiftOk(db.shifts[s], s, db);
    }
  }

  /** A new refund counts on its invoice and stays within it. */
  lemma NewRefundIsWithin(db: Db, employee: Employee, key: string, request: RefundRequest, shift: Id, handedOff: bool)
    requires !RefundKnown(db, employee, key)
    ensures var o := RefundCommand(db, employee, key, request, shift, handedOff); var i := request.invoice;
            o.Ok? ==> i < |o.db.invoices|
                      && Total(o.db.refunds, RefundedOn(i)) == Total(db.refunds, RefundedOn(i)) + request.amount <= o.db.invoices[i].total
  {
    TotalAppend(db.refunds, CashRefund(request, employee, key, |db.txns|), RefundedOn(request.invoice));
  }

  /** A provider refund leaves every shift's cash alone. */
  lemma ProviderRefundLeavesShifts(db: Db, id: Id, amount: Money, s: Id)
    requires BookProviderRefund(db, id, amount).Ok? && s < |db.shifts|
    ensures Reconciled(BookProviderRefund(db, id, amount).db, s) == Reconciled(db, s)
  {
    var d := BookProviderRefund(db, id, amount).db;
    InvoiceReconciles(db, id, d.invoices[id], s);
    assert Reconciled(d, s) == Reconciled(db.(invoices := d.invoices), s);
  }

  /** A handover expects what its shift reconciles to, and splits what was counted. */
  lemma NewHandoverIsOfItsShift(db: Db, employee: Employee, shift: Id, destination: Id, retained: Money)
    requires Inv(db) && RequestHandover(db, employee, shift, destination, retained).Ok?
    ensures var d := RequestHandover(db, employee, shift, destination, retained).db; var h := d.handovers[|db.handovers|];
            shift < |db.shifts| && h.expected == Reconciled(db, shift) && h.transfer + h.retained == h.expected + h.variance
  {
    assert ShiftOk(db.shifts[shift], shift, db);
  }

  /** In a state of the invariant an approved handover has sent its cash once, a settled one has also arrived once. */
  lemma HandoverMoved(db: Db, id: Id)
    requires Inv(db) && id < |db.handovers|
    ensures db.handovers[id].status == Approved ==> Total(db.txns, Tagged(Outgoing(id))) == 1
    ensures CreditsDue(db.handovers[id]) == Total(db.txns, Tagged(Incoming(id)))
  {
    assert HandoverOk(db.handovers[id], id, db.txns, db.funds);
  }

  /** A registered deposit is found under its reference. */
  lemma DepositIsFound(db: Db, id: Id)
    requires Inv(db) && id < |db.handovers| && db.handovers[id].bankRef.Some?
    ensures HandoverByReference(db.handovers, db.handovers[id].destination, db.handovers[id].bankRef.value) == id
  {
    ReferenceIsUnique(db.handovers, db.txns, db.funds, id);
  }

  /** A statement is imported once. */
  lemma ImportedOnce(db: Db, fund: Id, lines: seq<Line>)
    requires ImportStatement(db, fund, lines).Ok? && lines != []
    ensures ImportStatement(ImportStatement(db, fund, lines).db, fund, lines).Fail?
  {
    var d := ImportStatement(db, fund, lines).db;
    assert d.entries[|db.entries|] == NewEntries(|db.statements|, fund, lines)[0];
    assert d.entries[|db.entries|].line.externalId == lines[0].externalId;
  }

  lemma ApprovalDecides(db: Db, id: Id, employee: Employee)
    requires Inv(db)
    ensures var o := ApproveHandover(db, id, employee);
            o.Ok? ==> HandoverDecided(o.db, id) && id < |o.db.handovers| && Total(o.db.txns, Tagged(Outgoing(id))) == 1
                      && Total(o.db.txns, Tagged(Incoming(id))) == CreditsDue(o.db.handovers[id])
  {
    ApproveHandoverKeeps(db, id, employee);
    var o := ApproveHandover(db, id, employee);
    if o.Ok? {
      assert o.db.handovers[id].status == Approved;
      hide ApproveHandover;
      HandoverStaysDecided(o.db, id);
      HandoverMoved(o.db, id);
    }
  }

  lemma SettlementArrives(db: Db, id: Id, employee: Employee, reference: string, evidence: string)
    requires Inv(db)
    ensures var o := Settle(db, id, employee, reference, evidence);
            o.Ok? ==> id < |o.db.handovers| && Total(o.db.txns, Tagged(Incoming(id))) == 1
                      && HandoverByReference(o.db.handovers, o.db.handovers[id].destination, reference) == id
  {
    SettleKeeps(db, id, employee, reference, evidence);
    var o := Settle(db, id, employee, reference, evidence);
    if o.Ok? {
      assert o.db.handovers[id].bankRef == Some(reference) && CreditsDue(o.db.handovers[id]) == 1;
      hide Settle;
      HandoverMoved(o.db, id);
      DepositIsFound(o.db, id);
    }
  }

  lemma RegistrationIsFound(db: Db, id: Id, employee: Employee, reference: string, evidence: string)
    requires Inv(db)
    ensures var o := RegisterDeposit(db, id, employee, reference, evidence);
            o.Ok? ==> id < |o.db.handovers| && HandoverByReference(o.db.handovers, o.db.handovers[id].destination, reference) == id
  {
    RegisterDepositKeeps(db, id, employee, reference, evidence);
    var o := RegisterDeposit(db, id, employee, reference, evidence);
    if o.Ok? {
      assert o.db.handovers[id].bankRef == Some(reference);
      hide RegisterDeposit;
      DepositIsFound(o.db, id);
    }
  }

  lemma MatchesExactly(db: Db, id: Id, employee: Employee)
    requires Inv(db)
    ensures var o := ReconcileEntry(db, id, employee);
            o.Ok? ==> id < |db.entries| && id < |o.db.entries|
                      && forall h :: OpenMatch(db.entries[id].matching) ==>
                           (o.db.entries[id].matching == Matched(h) <==> Eligible(db, id, h))
  {
    var o := ReconcileEntry(db, id, employee);
    ReconcileAppends(db, id, employee);
    assert id >= |db.entries| ==> o.Fail?;
    hide ReconcileEntry, Inv, Eligible;
    if o.Ok? && OpenMatch(db.entries[id].matching) {
      forall h ensures o.db.entries[id].matching == Matched(h) <==> Eligible(db, id, h) {
        ReconcileMatchesTheEligible(db, id, employee, h);
      }
    }
  }

  // ----- the promises, transaction by transaction -----

  lemma RetypePromises(db: Db, fund: Id, kind: FundType)
    requires Inv(db)
    ensures var o := RetypeFund(db, fund, kind); Promise(db, o, 0)
    ensures var o := RetypeFund(db, fund, kind);
            o.Ok? ==> forall s :: 0 <= s < |db.shifts| ==> Reconciled(o.db, s) == Reconciled(db, s)
  {
    hide Inv, Extends, Holdings;
    PaperworkPromise(db, FundRetyped(fund, kind));
  }

  lemma RemovePromises(db: Db, fund: Id)
    requires Inv(db)
    ensures var o := CashTables.RemoveFund(db, fund); Promise(db, o, 0)
    ensures var o := CashTables.RemoveFund(db, fund);
            o.Ok? ==> fund < |db.funds| && db.funds[fund].opening + Total(db.txns, FlowOf(fund)) == 0
  {
    hide Inv, Extends, Holdings;
    PaperworkPromise(db, FundRemoved(fund));
    if CashTables.RemoveFund(db, fund).Ok? {
      RemovedFundIsEmpty(db, fund);
    }
  }

  lemma OpenPromises(db: Db, employee: Employee, key: string, fund: Id, cash: Money)
    requires Inv(db)
    ensures var o := OpenCommand(db, employee, key, fund, cash); Promise(db, o, 0)
    ensures var o := OpenCommand(db, employee, key, fund, cash);
            o.Ok? ==> Recorded(o.db, CommandKey(employee, OPEN_COMMAND, key), OpenRequest(fund, cash), o.response)
                      && (|o.db.shifts| > |db.shifts| ==> fund < |o.db.funds| && Reconciled(o.db, |db.shifts|) == o.db.funds[fund].balance)
  {
    hide Inv, Extends, Holdings;
    PaperworkPromise(db, ShiftOpening(employee, key, fund, cash));
    if OpenShift(db, employee, fund, cash).Ok? {
      NewShiftIsReconciled(db, employee, fund, cash);
    }
  }

  lemma MovementPromises(db: Db, employee: Employee, key: string, shift: Id, flow: Flow, amount: Money, threshold: Money)
    requires Inv(db) && amount > 0
    ensures var o := MovementCommand(db, employee, key, shift, flow, amount, threshold); Promise(db, o, MovementGain(db, employee, key, flow, amount, threshold))
    ensures var o := MovementCommand(db, employee, key, shift, flow, amount, threshold);
            o.Ok? ==> Recorded(o.db, CommandKey(employee, MOVEMENT_COMMAND, key), MovementRequest(shift, flow, amount), o.response)
  {
    hide Inv, Extends, Holdings, MovementGain, AddMovement;
    MovementPromise(db, employee, key, shift, flow, amount, threshold);
  }

  lemma ExpensePromises(db: Db, id: Id, employee: Employee)
    requires Inv(db)
    ensures var o := CashTables.ApproveExpense(db, id, employee); Promise(db, o, if id < |db.requests| then -db.requests[id].amount else 0)
    ensures var o := CashTables.ApproveExpense(db, id, employee);
            o.Ok? ==> ExpenseDecided(o.db, id)
  {
    hide Inv, Extends, Holdings;
    ExpensePromise(db, id, employee);
    if CashTables.ApproveExpense(db, id, employee).Ok? {
      ExpenseStaysDecided(CashTables.ApproveExpense(db, id, employee).db, id);
    }
  }

  lemma ResolvePromises(db: Db, id: Id, employee: Employee, status: RequestStatus)
    requires Inv(db)
    ensures var o := CashTables.ResolveExpense(db, id, employee, status); Promise(db, o, 0)
    ensures var o := CashTables.ResolveExpense(db, id, employee, status);
            o.Ok? ==> ExpenseDecided(o.db, id)
  {
    hide Inv, Extends, Holdings;
    PaperworkPromise(db, ExpenseResolution(id, employee, status));
    if CashTables.ResolveExpense(db, id, employee, status).Ok? {
      ExpenseStaysDecided(CashTables.ResolveExpense(db, id, employee, status).db, id);
    }
  }

  lemma ClosePromises(db: Db, employee: Employee, key: string, s: Id, reported: Money, hasNote: bool, note: Money, payments: nat, sessions: nat)
    requires Inv(db)
    ensures var o := CloseCommand(db, employee, key, s, reported, hasNote, note, payments, sessions); Promise(db, o, 0)
    ensures var o := CloseCommand(db, employee, key, s, reported, hasNote, note, payments, sessions);
            o.Ok? ==> Recorded(o.db, CommandKey(employee, CLOSE_COMMAND, key), CloseRequest(s, reported, hasNote), o.response)
                      && (CommandKey(employee, CLOSE_COMMAND, key) !in db.commands ==>
                           s < |o.db.shifts| && o.db.shifts[s].fund < |o.db.funds|
                           && o.db.shifts[s].status == Closed(reported, o.db.funds[o.db.shifts[s].fund].balance))
  {
    hide Inv, Extends, Holdings, Reconciled;
    PaperworkPromise(db, ShiftClosing(employee, key, s, reported, hasNote, note, payments, sessions));
    ClosingStoresTheTill(db, employee, s, reported, hasNote, note, payments, sessions);
  }

  lemma CheckoutPromises(db: Db, employee: Employee, total: Money, paidBy: Method, tendered: Option<Money>)
    requires Inv(db)
    ensures var o := CashTables.Checkout(db, employee, total, paidBy, tendered); Promise(db, o, SaleGain(paidBy, total))
    ensures var o := CashTables.Checkout(db, employee, total, paidBy, tendered);
            o.Ok? ==> InvoiceDecided(o.db, |db.invoices|)
  {
    hide Inv, Extends, Holdings;
    CheckoutPromise(db, employee, total, paidBy, tendered);
    if CashTables.Checkout(db, employee, total, paidBy, tendered).Ok? {
      InvoiceStaysDecided(CashTables.Checkout(db, employee, total, paidBy, tendered).db, |db.invoices|);
    }
  }

  lemma PaymentPromises(db: Db, id: Id, employee: Employee, paidBy: Method, tendered: Option<Money>)
    requires Inv(db)
    ensures var o := PayInvoice(db, id, employee, paidBy, tendered); Promise(db, o, if id < |db.invoices| then SaleGain(paidBy, db.invoices[id].total) else 0)
    ensures var o := PayInvoice(db, id, employee, paidBy, tendered);
            o.Ok? ==> InvoiceDecided(o.db, id)
  {
    hide Inv, Extends, Holdings;
    PaymentPromise(db, id, employee, paidBy, tendered);
    if PayInvoice(db, id, employee, paidBy, tendered).Ok? {
      InvoiceStaysDecided(PayInvoice(db, id, employee, paidBy, tendered).db, id);
    }
  }

  lemma VoidPromises(db: Db, id: Id)
    requires Inv(db)
    ensures var o := CashTables.VoidInvoice(db, id); Promise(db, o, 0)
    ensures var o := CashTables.VoidInvoice(db, id);
            o.Ok? ==> InvoiceDecided(o.db, id)
  {
    hide Inv, Extends, Holdings;
    PaperworkPromise(db, InvoiceVoided(id));
    if CashTables.VoidInvoice(db, id).Ok? {
      InvoiceStaysDecided(CashTables.VoidInvoice(db, id).db, id);
    }
  }

  lemma OnlinePromises(db: Db, id: Id, shift: Id)
    requires Inv(db)
    ensures var o := CompleteOnline(db, id, shift); Promise(db, o, 0)
    ensures var o := CompleteOnline(db, id, shift);
            o.Ok? ==> InvoiceDecided(o.db, id)
  {
    hide Inv, Extends, Holdings;
    PaperworkPromise(db, OnlinePayment(id, shift));
    if CompleteOnline(db, id, shift).Ok? {
      InvoiceStaysDecided(CompleteOnline(db, id, shift).db, id);
    }
  }

  lemma ProviderRefundPromises(db: Db, id: Id, amount: Money)
    requires Inv(db) && amount > 0
    ensures var o := BookProviderRefund(db, id, amount); Promise(db, o, 0)
    ensures var o := BookProviderRefund(db, id, amount);
            o.Ok? ==> |o.db.shifts| == |db.shifts| && forall s :: 0 <= s < |db.shifts| ==> Reconciled(o.db, s) == Reconciled(db, s)
  {
    hide Inv, Extends, Holdings;
    PaperworkPromise(db, ProviderRefunded(id, amount));
    if BookProviderRefund(db, id, amount).Ok? {
      forall s | 0 <= s < |db.shifts| ensures Reconciled(BookProviderRefund(db, id, amount).db, s) == Reconciled(db, s) {
        ProviderRefundLeavesShifts(db, id, amount, s);
      }
    }
  }

  lemma RefundPromises(db: Db, employee: Employee, key: string, request: RefundRequest, shift: Id, handedOff: bool)
    requires Inv(db) && request.amount > 0
    ensures var o := RefundCommand(db, employee, key, request, shift, handedOff); Promise(db, o, if RefundKnown(db, employee, key) then 0 else -request.amount)
    ensures var o := RefundCommand(db, employee, key, request, shift, handedOff);
            o.Ok? ==> Recorded(o.db, CommandKey(employee, REFUND_COMMAND, key), CashRefundRequest(request, shift), o.response)
                      && (!RefundKnown(db, employee, key) ==>
                           var i := request.invoice;
                           i < |o.db.invoices|
                           && Total(o.db.refunds, RefundedOn(i)) == Total(db.refunds, RefundedOn(i)) + request.amount <= o.db.invoices[i].total)
  {
    hide Inv, Extends, Holdings, RefundKnown, RefundCash;
    RefundPromise(db, employee, key, request, shift, handedOff);
    if !RefundKnown(db, employee, key) {
      NewRefundIsWithin(db, employee, key, request, shift, handedOff);
    }
  }

  lemma RequestHandoverPromises(db: Db, employee: Employee, shift: Id, destination: Id, retained: Money)
    requires Inv(db)
    ensures var o := RequestHandover(db, employee, shift, destination, retained); Promise(db, o, 0)
    ensures var o := RequestHandover(db, employee, shift, destination, retained);
            o.Ok? ==> |o.db.handovers| == |db.handovers| + 1 && shift < |o.db.shifts|
                      && var h := o.db.handovers[|db.handovers|];
                         h.expected == Reconciled(o.db, shift) && h.transfer + h.retained == h.expected + h.variance
  {
    hide Inv, Extends, Holdings;
    PaperworkPromise(db, HandoverRequested(employee, shift, destination, retained));
    if RequestHandover(db, employee, shift, destination, retained).Ok? {
      NewHandoverIsOfItsShift(db, employee, shift, destination, retained);
    }
  }

  lemma ApprovalPromises(db: Db, id: Id, employee: Employee)
    requires Inv(db)
    ensures var o := ApproveHandover(db, id, employee); Promise(db, o, if id < |db.handovers| then db.handovers[id].variance else 0)
    ensures var o := ApproveHandover(db, id, employee);
            o.Ok? ==> HandoverDecided(o.db, id) && id < |o.db.handovers| && Total(o.db.txns, Tagged(Outgoing(id))) == 1
                      && Total(o.db.txns, Tagged(Incoming(id))) == CreditsDue(o.db.handovers[id])
  {
    hide Inv, Extends, Holdings, HandoverDecided, ApproveHandover;
    ApprovalPromise(db, id, employee);
    ApprovalDecides(db, id, employee);
  }

  lemma DeclinePromises(db: Db, id: Id, employee: Employee, status: RequestStatus)
    requires Inv(db)
    ensures var o := DeclineHandover(db, id, employee, status); Promise(db, o, 0)
    ensures var o := DeclineHandover(db, id, employee, status);
            o.Ok? ==> HandoverDecided(o.db, id)
  {
    hide Inv, Extends, Holdings;
    PaperworkPromise(db, HandoverDeclined(id, employee, status));
    if DeclineHandover(db, id, employee, status).Ok? {
      HandoverStaysDecided(DeclineHandover(db, id, employee, status).db, id);
    }
  }

  lemma SettlementPromises(db: Db, id: Id, employee: Employee, reference: string, evidence: string)
    requires Inv(db)
    ensures var o := Settle(db, id, employee, reference, evidence); Promise(db, o, 0)
    ensures var o := Settle(db, id, employee, reference, evidence);
            o.Ok? ==> id < |o.db.handovers| && Total(o.db.txns, Tagged(Incoming(id))) == 1
                      && HandoverByReference(o.db.handovers, o.db.handovers[id].destination, reference) == id
  {
    hide Inv, Extends, Holdings, Settle;
    SettlePromise(db, id, employee, reference, evidence);
    SettlementArrives(db, id, employee, reference, evidence);
  }

  lemma DepositPromises(db: Db, id: Id, employee: Employee, reference: string, evidence: string)
    requires Inv(db)
    ensures var o := RegisterDeposit(db, id, employee, reference, evidence); Promise(db, o, 0)
    ensures var o := RegisterDeposit(db, id, employee, reference, evidence);
            o.Ok? ==> id < |o.db.handovers| && HandoverByReference(o.db.handovers, o.db.handovers[id].destination, reference) == id
  {
    hide Inv, Extends, Holdings;
    PaperworkPromise(db, DepositRegistered(id, employee, reference, evidence));
    RegistrationIsFound(db, id, employee, reference, evidence);
  }

  lemma ImportPromises(db: Db, fund: Id, lines: seq<Line>)
    requires Inv(db)
    ensures var o := ImportStatement(db, fund, lines); Promise(db, o, 0)
    ensures var o := ImportStatement(db, fund, lines);
            o.Ok? ==> lines != [] ==> ImportStatement(o.db, fund, lines).Fail?
  {
    hide Inv, Extends, Holdings;
    PaperworkPromise(db, StatementImported(fund, lines));
    if ImportStatement(db, fund, lines).Ok? && lines != [] {
      ImportedOnce(db, fund, lines);
    }
  }

  lemma ReconciliationPromises(db: Db, id: Id, employee: Employee)
    requires Inv(db)
    ensures var o := ReconcileEntry(db, id, employee); Promise(db, o, 0)
    ensures var o := ReconcileEntry(db, id, employee);
            o.Ok? ==> id < |db.entries| && id < |o.db.entries|
                      && forall h :: OpenMatch(db.entries[id].matching) ==> (o.db.entries[id].matching == Matched(h) <==> Eligible(db, id, h))
  {
    hide Inv, Extends, Holdings, ReconcileEntry, Eligible;
    ReconcilePromise(db, id, employee);
    MatchesExactly(db, id, employee);
  }

  lemma IgnorePromises(db: Db, id: Id)
    requires Inv(db)
    ensures var o := IgnoreEntry(db, id); Promise(db, o, 0)
    ensures var o := IgnoreEntry(db, id);
            o.Ok? ==> forall other :: ReconcileEntry(o.db, id, other) == Ok(o.db, Done)
  {
    hide Inv, Extends, Holdings;
    PaperworkPromise(db, EntryIgnored(id));
  }

  lemma MarkPromises(db: Db, id: Id)
    requires Inv(db)
    ensures id < |db.entries| ==> Promise(db, Ok(Remark(db, id, Mismatch), Done), 0)
  {
    hide Inv, Extends, Holdings;
    PaperworkPromise(db, EntryMarked(id));
  }
}

/** What holds at the cash desk after every run, and what a run can never take back. */
module CashRuns {
  import opened Sums
  import opened CashTables
  import opened CashLedger

  // ----- every step keeps the invariant -----

  lemma CommandsAside(db: Db, commands: map<CommandKey, CommandRow>)
    requires Inv(db)
    ensures Inv(db.(commands := commands))
  {
    var d := db.(commands := commands);
    assert forall s :: 0 <= s < |d.shifts| ==> Reconciled(d, s) == Reconciled(db, s);
  }

  lemma RequestsAside(db: Db, requests: seq<ExpenseRequest>)
    requires Inv(db) && RequestsOk(requests)
    ensures Inv(db.(requests := requests))
  {
    var d := db.(requests := requests);
    assert forall s :: 0 <= s < |d.shifts| ==> Reconciled(d, s) == Reconciled(db, s);
  }

  lemma ExecuteKeeps(db: Db, key: CommandKey, request: Request, operation: Db -> Outcome)
    requires Inv(db) && Keeps(operation(db))
    ensures Keeps(Execute(db, key, request, operation))
  {
    if key !in db.commands && operation(db).Ok? {
      CommandsAside(operation(db).db, operation(db).db.commands[key := CommandRow(request, operation(db).response)]);
    }
  }

  lemma PostMovementKeeps(db: Db, s: Id, flow: Flow, amount: Money)
    requires Inv(db) && s < |db.shifts| && db.shifts[s].status == Open && amount > 0
    ensures Keeps(PostMovement(db, s, db.shifts[s].fund, flow, amount))
  {
    var fund := db.shifts[s].fund;
    var t := CashTx(flow, amount, fund, Some(s), Manual);
    assert ShiftOk(db.shifts[s], s, db) && FundOk(db.funds[fund], fund, db.txns);
    if PostMovement(db, s, fund, flow, amount).Ok? {
      MovementKeeps(db, t);
    }
  }

  lemma AddMovementKeeps(db: Db, employee: Employee, expected: Id, flow: Flow, amount: Money, threshold: Money)
    requires Inv(db) && amount > 0
    ensures Keeps(AddMovement(db, employee, expected, flow, amount, threshold))
  {
    var s := OpenShiftOf(db.shifts, employee);
    if AddMovement(db, employee, expected, flow, amount, threshold).Ok? {
      if flow == Expense && amount >= threshold {
        RequestsAside(db, db.requests + [ExpenseRequest(amount, employee, s, db.shifts[s].fund, Pending, None)]);
      } else {
        PostMovementKeeps(db, s, flow, amount);
      }
    }
  }

  lemma ApproveExpenseKeeps(db: Db, id: Id, employee: Employee)
    requires Inv(db)
    ensures Keeps(ApproveExpense(db, id, employee))
  {
    if ApproveExpense(db, id, employee).Ok? {
      var r := db.requests[id];
      PostMovementKeeps(db, r.shift, Expense, r.amount);
      RequestsAside(PostMovement(db, r.shift, r.fund, Expense, r.amount).db, ApproveExpense(db, id, employee).db.requests);
    }
  }

  lemma ImportKeeps(db: Db, fund: Id, lines: seq<Line>)
    requires Inv(db)
    ensures Keeps(ImportStatement(db, fund, lines))
  {
    if ImportStatement(db, fund, lines).Ok? {
      EntriesChange(db, db.entries + NewEntries(|db.statements|, fund, lines));
      var d := ImportStatement(db, fund, lines).db;
      var e := db.(entries := d.entries);
      assert forall s :: 0 <= s < |d.shifts| ==> Reconciled(d, s) == Reconciled(e, s);
    }
  }

  lemma CheckoutKeeps(db: Db, employee: Employee, total: Money, paidBy: Method, tendered: Option<Money>)
    requires Inv(db)
    ensures Keeps(Checkout(db, employee, total, paidBy, tendered))
  {
    if Checkout(db, employee, total, paidBy, tendered).Ok? {
      IssueKeeps(db, total);
      PayKeeps(IssueInvoice(db, total).db, |db.invoices|, employee, paidBy, tendered);
    }
  }

  lemma OpenCommandKeeps(db: Db, employee: Employee, key: string, fund: Id, cash: Money)
    requires Inv(db)
    ensures Keeps(OpenCommand(db, employee, key, fund, cash))
  {
    OpenShiftKeeps(db, employee, fund, cash);
    ExecuteKeeps(db, CommandKey(employee, OPEN_COMMAND, key), OpenRequest(fund, cash), (d: Db) => OpenShift(d, employee, fund, cash));
  }

  lemma MovementCommandKeeps(db: Db, employee: Employee, key: string, shift: Id, flow: Flow, amount: Money, threshold: Money)
    requires Inv(db) && amount > 0
    ensures Keeps(MovementCommand(db, employee, key, shift, flow, amount, threshold))
  {
    AddMovementKeeps(db, employee, shift, flow, amount, threshold);
    ExecuteKeeps(db, CommandKey(employee, MOVEMENT_COMMAND, key), MovementRequest(shift, flow, amount),
                 (d: Db) => AddMovement(d, employee, shift, flow, amount, threshold));
  }

  lemma CloseCommandKeeps(db: Db, employee: Employee, key: string, shift: Id, reported: Money, hasNote: bool, note: Money,
                          payments: nat, sessions: nat)
    requires Inv(db)
    ensures Keeps(CloseCommand(db, employee, key, shift, reported, hasNote, note, payments, sessions))
  {
    if CloseShift(db, employee, shift, reported, hasNote, note, payments, sessions).Ok? {
      CloseShiftKeeps(db, employee, shift, reported, hasNote, note, payments, sessions);
    }
    ExecuteKeeps(db, CommandKey(employee, CLOSE_COMMAND, key), CloseRequest(shift, reported, hasNote),
                 (d: Db) => CloseShift(d, employee, shift, reported, hasNote, note, payments, sessions));
  }

  lemma RefundCommandKeeps(db: Db, employee: Employee, key: string, request: RefundRequest, shift: Id, handedOff: bool)
    requires Inv(db) && request.amount > 0
    ensures Keeps(RefundCommand(db, employee, key, request, shift, handedOff))
  {
    RefundCashKeeps(db, employee, key, request, shift, handedOff);
    ExecuteKeeps(db, CommandKey(employee, REFUND_COMMAND, key), CashRefundRequest(request, shift),
                 (d: Db) => RefundCash(d, employee, key, request, shift, handedOff));
  }

  lemma RetypeKeeps(db: Db, fund: Id, kind: FundType)
    requires Inv(db)
    ensures Keeps(RetypeFund(db, fund, kind))
  {
    if RetypeFund(db, fund, kind).Ok? {
      FundRowKeeps(db, fund, db.funds[fund].(kind := kind));
    }
  }

  lemma RemoveKeeps(db: Db, fund: Id)
    requires Inv(db)
    ensures Keeps(RemoveFund(db, fund))
  {
    if RemoveFund(db, fund).Ok? {
      FundRowKeeps(db, fund, db.funds[fund].(deleted := true));
    }
  }

  lemma ResolveKeeps(db: Db, id: Id, employee: Employee, status: RequestStatus)
    requires Inv(db)
    ensures Keeps(ResolveExpense(db, id, employee, status))
  {
    if ResolveExpense(db, id, employee, status).Ok? {
      RequestsAside(db, db.requests[id := db.requests[id].(status := status)]);
    }
  }

  lemma VoidKeeps(db: Db, id: Id)
    requires Inv(db)
    ensures Keeps(VoidInvoice(db, id))
  {
    if VoidInvoice(db, id).Ok? {
      InvoiceRowKeeps(db, id, db.invoices[id].(status := Voided));
    }
  }

  lemma CompleteOnlineKeeps(db: Db, id: Id, shift: Id)
    requires Inv(db)
    ensures Keeps(CompleteOnline(db, id, shift))
  {
    if CompleteOnline(db, id, shift).Ok? {
      InvoiceRowKeeps(db, id, db.invoices[id].(status := Paid, paidBy := Transfer, shift := Some(shift)));
    }
  }

  /** A provider refund changes an invoice that no shift's cash depends on. */
  lemma ProviderRefundKeeps(db: Db, id: Id, amount: Money)
    requires Inv(db) && amount > 0
    ensures Keeps(BookProviderRefund(db, id, amount))
  {
    if BookProviderRefund(db, id, amount).Ok? {
      var d := BookProviderRefund(db, id, amount).db;
      var row := d.reversals[|db.reversals|];
      forall i | 0 <= i < |d.invoices| ensures ReversalOk(d.invoices[i], i, d.reversals) {
        TotalAppend(db.reversals, row, ReversedOn(i));
        ReversalsNonNegative(db.reversals, db.invoices, i);
      }
      forall s | 0 <= s < |d.shifts| ensures ShiftOk(d.shifts[s], s, d) {
        InvoiceReconciles(db, id, d.invoices[id], s);
        assert Reconciled(d, s) == Reconciled(db.(invoices := d.invoices), s);
      }
    }
  }

  lemma ReversalsNonNegative(reversals: seq<ProviderRefund>, invoices: seq<Invoice>, i: Id)
    requires ReversalsOk(invoices, reversals)
    ensures Total(reversals, ReversedOn(i)) >= 0
  {
    TotalNonNegative(reversals, ReversedOn(i));
  }

  lemma PayInvoiceKeeps(db: Db, id: Id, employee: Employee, paidBy: Method, tendered: Option<Money>)
    requires Inv(db)
    ensures Keeps(PayInvoice(db, id, employee, paidBy, tendered))
  {
    if PayInvoice(db, id, employee, paidBy, tendered).Ok? {
      PayKeeps(db, id, employee, paidBy, tendered);
    }
  }

  lemma MarkingKeeps(db: Db, id: Id)
    requires Inv(db)
    ensures Keeps(MarkMismatch(db, id)) && Keeps(IgnoreEntry(db, id))
  {
    if id < |db.entries| {
      RemarkKeeps(db, id, Mismatch);
      RemarkKeeps(db, id, Ignored);
    }
  }

  lemma PurgeKeeps(db: Db, victims: set<CommandKey>)
    requires Inv(db)
    ensures Keeps(Purge(db, victims))
  {
    CommandsAside(db, db.commands - victims);
  }

  predicate IsBanking(e: Event) {
    e.HandoverRequested? || e.HandoverApproved? || e.HandoverDeclined? || e.HandoverSettled? || e.DepositRegistered?
    || e.StatementImported? || e.EntryReconciled? || e.EntryMarked? || e.EntryIgnored?
  }

  predicate IsInvoicing(e: Event) {
    e.InvoiceIssued? || e.InvoiceCheckout? || e.InvoicePayment? || e.InvoiceVoided? || e.OnlinePayment? || e.ProviderRefunded?
    || e.Refunding?
  }

  lemma BankingKeeps(db: Db, event: Event)
    requires Inv(db) && IsBanking(event)
    ensures Keeps(Step(db, event))
  {
    hide Inv;
    match event
    case HandoverRequested(employee, shift, destination, retained) => RequestHandoverKeeps(db, employee, shift, destination, retained);
    case HandoverApproved(id, employee) => ApproveHandoverKeeps(db, id, employee);
    case HandoverDeclined(id, employee, status) => DeclineHandoverKeeps(db, id, employee, status);
    case HandoverSettled(id, employee, reference, evidence) => SettleKeeps(db, id, employee, reference, evidence);
    case DepositRegistered(id, employee, reference, evidence) => RegisterDepositKeeps(db, id, employee, reference, evidence);
    case StatementImported(fund, lines) => ImportKeeps(db, fund, lines);
    case EntryReconciled(id, employee) => ReconcileEntryKeeps(db, id, employee);
    case EntryMarked(id) => MarkingKeeps(db, id);
    case EntryIgnored(id) => MarkingKeeps(db, id);
  }

  lemma InvoicingKeeps(db: Db, event: Event)
    requires Inv(db) && IsInvoicing(event) && Admissible(event)
    ensures Keeps(Step(db, event))
  {
    hide Inv;
    match event
    case InvoiceIssued(total) => IssueKeeps(db, total);
    case InvoiceCheckout(employee, total, paidBy, tendered) => CheckoutKeeps(db, employee, total, paidBy, tendered);
    case InvoicePayment(id, employee, paidBy, tendered) => PayInvoiceKeeps(db, id, employee, paidBy, tendered);
    case InvoiceVoided(id) => VoidKeeps(db, id);
    case OnlinePayment(id, shift) => CompleteOnlineKeeps(db, id, shift);
    case ProviderRefunded(id, amount) => ProviderRefundKeeps(db, id, amount);
    case Refunding(employee, key, request, shift, handedOff) => RefundCommandKeeps(db, employee, key, request, shift, handedOff);
  }

  lemma TillKeeps(db: Db, event: Event)
    requires Inv(db) && Admissible(event) && !IsBanking(event) && !IsInvoicing(event)
    ensures Keeps(Step(db, event))
  {
    hide Inv;
    match event
    case FundCreated(kind, opening) => FundAppendKeeps(db, kind, opening);
    case FundRetyped(fund, kind) => RetypeKeeps(db, fund, kind);
    case FundRemoved(fund) => RemoveKeeps(db, fund);
    case ShiftOpening(employee, key, fund, cash) => OpenCommandKeeps(db, employee, key, fund, cash);
    case Movement(employee, key, shift, flow, amount, threshold) =>
      MovementCommandKeeps(db, employee, key, shift, flow, amount, threshold);
    case ExpenseApproval(id, employee) => ApproveExpenseKeeps(db, id, employee);
    case ExpenseResolution(id, employee, status) => ResolveKeeps(db, id, employee, status);
    case ShiftClosing(employee, key, shift, reported, hasNote, note, payments, sessions) =>
      CloseCommandKeeps(db, employee, key, shift, reported, hasNote, note, payments, sessions);
    case CommandsPurged(victims) => PurgeKeeps(db, victims);
  }

  /** Every transaction keeps the invariant. */
  lemma StepKeeps(db: Db, event: Event)
    requires Inv(db) && Admissible(event)
    ensures Keeps(Step(db, event))
  {
    if IsBanking(event) {
      BankingKeeps(db, event);
    } else if IsInvoicing(event) {
      InvoicingKeeps(db, event);
    } else {
      TillKeeps(db, event);
    }
  }

  ghost predicate AllAdmissible(events: seq<Event>) {
    forall i :: 0 <= i < |events| ==> Admissible(events[i])
  }

  /** The invariant holds after every run, however its transactions interleave. */
  lemma {:induction false} RunKeeps(db: Db, events: seq<Event>)
    requires Inv(db) && AllAdmissible(events)
    ensures Inv(Run(db, events))
  {
    if events != [] {
      RunKeeps(db, events[..|events| - 1]);
      StepKeeps(Run(db, events[..|events| - 1]), events[|events| - 1]);
    }
  }

  // ----- what a run never takes back -----

  /** The durable part of every later state: ledger and refund rows are only appended, closed shifts
      and matched statement entries stay as they are, a handover keeps its amounts and its bank
      reference, and the rows of commands that housekeeping may not purge stay. */
  ghost predicate Extends(a: Db, b: Db) {
    match b
    case Db(funds, shifts, txns, _, refunds, _, handovers, _, entries, commands, reversals) =>
      && |a.funds| <= |funds| && a.txns <= txns && a.refunds <= refunds && a.reversals <= reversals
      && ShiftsExtend(a.shifts, shifts) && EntriesExtend(a.entries, entries) && HandoversExtend(a.handovers, handovers)
      && CommandsExtend(a.commands, commands)
  }

  ghost predicate ShiftsExtend(a: seq<Shift>, b: seq<Shift>) {
    |a| <= |b| && forall s :: 0 <= s < |a| ==> b[s] == a[s].(status := b[s].status) && (a[s].status.Closed? ==> b[s] == a[s])
  }

  ghost predicate EntriesExtend(a: seq<Entry>, b: seq<Entry>) {
    |a| <= |b| && forall e :: 0 <= e < |a| ==> b[e] == a[e].(matching := b[e].matching) && (a[e].matching.Matched? ==> b[e] == a[e])
  }

  ghost predicate HandoverExtends(x: Handover, y: Handover) {
    && y.shift == x.shift && y.source == x.source && y.destination == x.destination && y.transfer == x.transfer
    && y.variance == x.variance && y.retained == x.retained
    && (x.bankRef.Some? ==> y.bankRef == x.bankRef) && (x.status != Pending ==> y.status == x.status)
    && (CreditsDue(x) == 1 ==> y == x)
  }

  ghost predicate HandoversExtend(a: seq<Handover>, b: seq<Handover>) {
    |a| <= |b| && forall h :: 0 <= h < |a| ==> HandoverExtends(a[h], b[h])
  }

  ghost predicate CommandsExtend(a: map<CommandKey, CommandRow>, b: map<CommandKey, CommandRow>) {
    forall k :: k in a && !Purgeable(k.operation) ==> k in b && b[k] == a[k]
  }

  lemma HandoversExtendTransitive(a: seq<Handover>, b: seq<Handover>, c: seq<Handover>)
    requires HandoversExtend(a, b) && HandoversExtend(b, c)
    ensures HandoversExtend(a, c)
  {
    forall h | 0 <= h < |a|
      ensures HandoverExtends(a[h], c[h])
    {
      assert HandoverExtends(a[h], b[h]) && HandoverExtends(b[h], c[h]);
    }
  }

  lemma ExtendsTransitive(a: Db, b: Db, c: Db)
    requires Extends(a, b) && Extends(b, c)
    ensures Extends(a, c)
  {
    HandoversExtendTransitive(a.handovers, b.handovers, c.handovers);
  }

  ghost predicate Appends(a: Db, o: Outcome) {
    match o
    case Ok(b, _) => Extends(a, b)
    case Fail(_) => true
  }

  lemma SettleAppends(db: Db, id: Id, employee: Employee, reference: string, evidence: string)
    ensures Appends(db, Settle(db, id, employee, reference, evidence))
  {
  }

  lemma RemarkAppends(db: Db, id: Id, m: Match)
    requires id < |db.entries|
    ensures Extends(db, Remark(db, id, m))
  {
  }

  lemma ReconcileAppends(db: Db, id: Id, employee: Employee)
    ensures Appends(db, ReconcileEntry(db, id, employee))
  {
    if id < |db.entries| && OpenMatch(db.entries[id].matching) {
      var e := db.entries[id];
      RemarkAppends(db, id, Unmatched);
      RemarkAppends(db, id, Mismatch);
      if e.line.bankRef.Some? {
        var h := HandoverByReference(db.handovers, e.fund, e.line.bankRef.value);
        RemarkAppends(db, id, Matched(h));
        if h < |db.handovers| && db.handovers[h].evidence.Some? {
          var o := Settle(db, h, employee, e.line.bankRef.value, db.handovers[h].evidence.value);
          SettleAppends(db, h, employee, e.line.bankRef.value, db.handovers[h].evidence.value);
          if o.Ok? {
            RemarkAppends(o.db, id, Matched(h));
            ExtendsTransitive(db, o.db, Remark(o.db, id, Matched(h)));
          }
        }
      }
    }
  }

  lemma ApproveAppends(db: Db, id: Id, employee: Employee)
    ensures Appends(db, ApproveHandover(db, id, employee))
  {
  }

  lemma ExecuteAppends(db: Db, key: CommandKey, request: Request, operation: Db -> Outcome)
    requires Appends(db, operation(db)) && (operation(db).Ok? ==> operation(db).db.commands == db.commands)
    ensures Appends(db, Execute(db, key, request, operation))
  {
  }

  lemma ShiftCommandAppends(db: Db, event: Event)
    requires event.ShiftOpening? || event.ShiftClosing?
    ensures Appends(db, Step(db, event))
  {
    match event
    case ShiftOpening(employee, key, fund, cash) =>
      ExecuteAppends(db, CommandKey(employee, OPEN_COMMAND, key), OpenRequest(fund, cash), (d: Db) => OpenShift(d, employee, fund, cash));
    case ShiftClosing(employee, key, shift, reported, hasNote, note, payments, sessions) =>
      ExecuteAppends(db, CommandKey(employee, CLOSE_COMMAND, key), CloseRequest(shift, reported, hasNote),
                     (d: Db) => CloseShift(d, employee, shift, reported, hasNote, note, payments, sessions));
  }

  lemma MoneyCommandAppends(db: Db, event: Event)
    requires event.Movement? || event.Refunding?
    ensures Appends(db, Step(db, event))
  {
    match event
    case Movement(employee, key, shift, flow, amount, threshold) =>
      ExecuteAppends(db, CommandKey(employee, MOVEMENT_COMMAND, key), MovementRequest(shift, flow, amount),
                     (d: Db) => AddMovement(d, employee, shift, flow, amount, threshold));
    case Refunding(employee, key, request, shift, handedOff) =>
      ExecuteAppends(db, CommandKey(employee, REFUND_COMMAND, key), CashRefundRequest(request, shift),
                     (d: Db) => RefundCash(d, employee, key, request, shift, handedOff));
  }

  lemma PaperworkAppends(db: Db, event: Event)
    requires IsBanking(event) && !event.HandoverApproved? && !event.HandoverSettled? && !event.EntryReconciled?
    requires !event.EntryMarked? && !event.EntryIgnored?
    ensures Appends(db, Step(db, event))
  {
  }

  lemma BankingAppends(db: Db, event: Event)
    requires IsBanking(event)
    ensures Appends(db, Step(db, event))
  {
    hide ApproveHandover, Settle, ReconcileEntry;
    match event
    case HandoverApproved(id, employee) => hide Extends; ApproveAppends(db, id, employee);
    case HandoverSettled(id, employee, reference, evidence) => hide Extends; SettleAppends(db, id, employee, reference, evidence);
    case EntryReconciled(id, employee) => hide Extends; ReconcileAppends(db, id, employee);
    case EntryMarked(id) => if id < |db.entries| { hide Extends; RemarkAppends(db, id, Mismatch); }
    case EntryIgnored(id) => if id < |db.entries| { hide Extends; RemarkAppends(db, id, Ignored); }
    case _ => hide Extends; PaperworkAppends(db, event);
  }

  lemma StepAppends(db: Db, event: Event)
    ensures Appends(db, Step(db, event))
  {
    if event.ShiftOpening? || event.ShiftClosing? {
      ShiftCommandAppends(db, event);
    } else if event.Movement? || event.Refunding? {
      MoneyCommandAppends(db, event);
    } else if IsBanking(event) {
      BankingAppends(db, event);
    }
  }

  lemma {:induction false} RunExtends(db: Db, events: seq<Event>)
    ensures Extends(db, Run(db, events))
  {
    if events != [] {
      var before := Run(db, events[..|events| - 1]);
      RunExtends(db, events[..|events| - 1]);
      StepAppends(before, events[|events| - 1]);
      ExtendsTransitive(db, before, Run(db, events));
    }
  }

  // ----- theorems -----

  /** The tables after a run from the empty shop. */
  ghost predicate Reachable(db: Db) {
    exists events :: AllAdmissible(events) && db == Run(EMPTY, events)
  }

  lemma ReachableInv(db: Db)
    requires Reachable(db)
    ensures Inv(db)
  {
    var events :| AllAdmissible(events) && db == Run(EMPTY, events);
    RunKeeps(EMPTY, events);
  }

  /** Every fund's balance is its opening balance plus its income rows minus its expense rows. */
  lemma BalanceIsLedger(db: Db, f: Id)
    requires Reachable(db) && f < |db.funds|
    ensures db.funds[f].balance == db.funds[f].opening + Total(db.txns, FlowOf(f)) >= 0
  {
    ReachableInv(db);
    assert FundOk(db.funds[f], f, db.txns);
  }

  /** An open shift reconciles to the balance in its till, so closing it stores that balance. */
  lemma OpenShiftReconcilesToTill(db: Db, s: Id, employee: Employee, reported: Money, hasNote: bool, note: Money,
                                  payments: nat, sessions: nat)
    requires Reachable(db) && s < |db.shifts| && db.shifts[s].status == Open
    ensures db.shifts[s].fund < |db.funds| && Reconciled(db, s) == db.funds[db.shifts[s].fund].balance >= 0
    ensures var o := CloseShift(db, employee, s, reported, hasNote, note, payments, sessions);
            o.Ok? ==> o.db.shifts[s].status == Closed(reported, db.funds[db.shifts[s].fund].balance)
  {
    ReachableInv(db);
    assert ShiftOk(db.shifts[s], s, db);
    BalanceIsLedger(db, db.shifts[s].fund);
  }

  /** Recomputing a closed shift gives the stored amount, at once and after any later run, whatever
      is refunded on its invoices meanwhile. */
  lemma ClosedShiftNeverDrifts(db: Db, s: Id, later: seq<Event>)
    requires Reachable(db) && s < |db.shifts| && db.shifts[s].status.Closed? && AllAdmissible(later)
    ensures var after := Run(db, later);
            s < |after.shifts| && after.shifts[s] == db.shifts[s] && Reconciled(after, s) == db.shifts[s].status.actual
  {
    ReachableInv(db);
    RunKeeps(db, later);
    RunExtends(db, later);
    var after := Run(db, later);
    assert ShiftOk(after.shifts[s], s, after);
  }

  /** No money appears or vanishes inside the shop: balances plus deposits under way are the opening
      balances plus sales, movements, refunds and counting variances. */
  lemma MoneyIsConserved(db: Db)
    requires Reachable(db)
    ensures Total(db.funds, Balance()) + Total(db.handovers, InTransit()) == Total(db.funds, Opening()) + Total(db.txns, External())
  {
    ReachableInv(db);
  }

  /** An approved handover has sent its cash once and credited its destination once, except while a
      bank destination awaits settlement; an undecided or declined one has moved nothing. While it
      awaits settlement its destination stays an active bank fund. */
  lemma HandoverMovesMoneyOnce(db: Db, id: Id)
    requires Reachable(db) && id < |db.handovers|
    ensures var h := db.handovers[id];
            && Total(db.txns, Tagged(Outgoing(id))) == (if h.status == Approved then 1 else 0)
            && Total(db.txns, Tagged(Incoming(id))) == (if h.status == Approved && h.settlement != AwaitingBank then 1 else 0)
            && (h.settlement == AwaitingBank ==>
                 h.destination < |db.funds| && db.funds[h.destination].kind == Bank && !db.funds[h.destination].deleted)
            && (CreditsDue(h) == 1 ==>
                 h.destinationTx.Some? && h.destinationTx.value < |db.txns| && db.txns[h.destinationTx.value] == IncomingRow(id, h))
  {
    ReachableInv(db);
    assert HandoverOk(db.handovers[id], id, db.txns, db.funds);
  }

  /** A matched statement entry agrees with its settled handover in fund, reference and amount, no
      other entry is matched to that handover, and none of this ever changes. */
  lemma MatchIsOneToOneAndFinal(db: Db, e: Id, later: seq<Event>)
    requires Reachable(db) && AllAdmissible(later) && e < |db.entries| && db.entries[e].matching.Matched?
    ensures var after := Run(db, later);
            && e < |after.entries| && after.entries[e] == db.entries[e]
            && var entry := after.entries[e];
            && entry.matching.handover < |after.handovers|
            && var h := after.handovers[entry.matching.handover];
            && h.settlement == Settled && h.destination == entry.fund && h.bankRef == entry.line.bankRef
            && h.transfer == entry.line.amount
            && forall k :: 0 <= k < |after.entries| && after.entries[k].matching == entry.matching ==> k == e
  {
    ReachableInv(db);
    RunKeeps(db, later);
    RunExtends(db, later);
    var after := Run(db, later);
    assert EntryOk(after.entries[e], after.handovers);
    assert after.entries[e] == db.entries[e];
    assert forall k :: 0 <= k < |after.entries| && k != e ==> after.entries[k].matching != after.entries[e].matching;
  }

  /** Settling by hand before the statement is reconciled, or leaving it to the reconciliation,
      leaves the same tables: one credit either way. */
  lemma SettlementOrderIsIrrelevant(db: Db, e: Id, h: Id, manager: Employee, clerk: Employee)
    requires Reachable(db) && e < |db.entries| && OpenMatch(db.entries[e].matching) && h < |db.handovers|
    requires db.entries[e].fund == db.handovers[h].destination && db.entries[e].line.amount == db.handovers[h].transfer
    requires db.handovers[h].bankRef.Some? && db.entries[e].line.bankRef == db.handovers[h].bankRef && db.handovers[h].evidence.Some?
    requires !MatchedElsewhere(db.entries, e, h)
    requires var settled := Settle(db, h, manager, db.handovers[h].bankRef.value, db.handovers[h].evidence.value);
             settled.Ok? && ReconcileEntry(db, e, clerk).Ok?
    ensures var settled := Settle(db, h, manager, db.handovers[h].bankRef.value, db.handovers[h].evidence.value);
            ReconcileEntry(settled.db, e, clerk) == ReconcileEntry(db, e, clerk)
            && ReconcileEntry(db, e, clerk).db.entries[e].matching == Matched(h)
  {
    ReachableInv(db);
    var reference := db.handovers[h].bankRef.value;
    var after := Settle(db, h, manager, reference, db.handovers[h].evidence.value).db;
    ReferenceIsUnique(db.handovers, db.txns, db.funds, h);
    SettleKeeps(db, h, manager, reference, db.handovers[h].evidence.value);
    ReferenceIsUnique(after.handovers, after.txns, after.funds, h);
  }

  /** A handover the reconciliation may link to an entry: same fund, reference and amount, approved to
      a bank, evidenced, and not taken by another entry. */
  ghost predicate Eligible(db: Db, e: Id, h: Id)
    requires e < |db.entries|
  {
    && h < |db.handovers| && db.handovers[h].destination == db.entries[e].fund
    && db.handovers[h].bankRef.Some? && db.handovers[h].bankRef == db.entries[e].line.bankRef
    && db.handovers[h].transfer == db.entries[e].line.amount
    && db.handovers[h].status == Approved && db.handovers[h].settlement != NotRequired && db.handovers[h].evidence.Some?
    && !MatchedElsewhere(db.entries, e, h)
  }

  lemma SettleLeavesEntries(db: Db, id: Id, employee: Employee, reference: string, evidence: string)
    ensures Settle(db, id, employee, reference, evidence).Ok? ==> Settle(db, id, employee, reference, evidence).db.entries == db.entries
  {
  }

  /** A reconciliation that commits matches an open entry to exactly the eligible handover. */
  lemma ReconcileMatchesTheEligible(db: Db, e: Id, employee: Employee, h: Id)
    requires Inv(db) && e < |db.entries| && OpenMatch(db.entries[e].matching) && ReconcileEntry(db, e, employee).Ok?
    ensures ReconcileEntry(db, e, employee).db.entries[e].matching == Matched(h) <==> Eligible(db, e, h)
  {
    if h < |db.handovers| && db.handovers[h].bankRef.Some? {
      ReferenceIsUnique(db.handovers, db.txns, db.funds, h);
    }
    hide Inv, Settle;
    var entry := db.entries[e];
    if entry.line.bankRef.Some? {
      var found := HandoverByReference(db.handovers, entry.fund, entry.line.bankRef.value);
      if found < |db.handovers| && db.handovers[found].evidence.Some? {
        SettleLeavesEntries(db, found, employee, entry.line.bankRef.value, db.handovers[found].evidence.value);
      }
    }
  }

  lemma ReferenceIsUnique(handovers: seq<Handover>, txns: seq<CashTx>, funds: seq<Fund>, h: Id)
    requires HandoversOk(handovers, txns, funds) && h < |handovers| && handovers[h].bankRef.Some?
    ensures HandoverByReference(handovers, handovers[h].destination, handovers[h].bankRef.value) == h
  {
    assert forall k :: 0 <= k < |handovers| && k != h && handovers[k].destination == handovers[h].destination ==>
                         handovers[k].bankRef != handovers[h].bankRef;
  }

  /** Cash refunds on an invoice never exceed its total, and the status of a cash invoice says exactly where
      they stand. */
  lemma RefundsStayWithinTotal(db: Db, i: Id)
    requires Reachable(db) && i < |db.invoices|
    ensures var v := db.invoices[i]; var refunded := Total(db.refunds, RefundedOn(i));
            && 0 <= refunded <= v.total
            && (v.paidBy == CashPayment ==> (v.status == Refunded <==> refunded > 0 && refunded == v.total)
                                            && (v.status == PartiallyRefunded <==> 0 < refunded < v.total))
  {
    ReachableInv(db);
    assert InvoiceOk(db.invoices[i], i, db.refunds, db.txns);
  }

  /** Cash and provider refunds never meet on an invoice: an invoice not paid in cash has no cash refund, one
      not paid by transfer no provider refund, and the status of a transfer says where the provider's refunds
      stand. */
  lemma RefundsKeepToTheirInvoices(db: Db, i: Id)
    requires Reachable(db) && i < |db.invoices|
    ensures var v := db.invoices[i]; var refunded := Total(db.refunds, RefundedOn(i)); var reversed := Total(db.reversals, ReversedOn(i));
            && (v.paidBy != CashPayment ==> refunded == 0) && (v.paidBy != Transfer ==> reversed == 0)
            && (v.paidBy == Transfer ==> (v.status == Refunded <==> reversed > 0 && reversed >= v.total)
                                         && (v.status == PartiallyRefunded <==> 0 < reversed < v.total))
  {
    ReachableInv(db);
    assert InvoiceOk(db.invoices[i], i, db.refunds, db.txns) && ReversalOk(db.invoices[i], i, db.reversals);
  }

  /** The refund guard "cash payment ledger must be reconciled" cannot refuse a paid cash invoice. */
  lemma PaidCashIsOnLedger(db: Db, i: Id)
    requires Reachable(db) && i < |db.invoices| && db.invoices[i].paidBy == CashPayment && Settleable(db.invoices[i].status)
    ensures SaleOnLedger(db, i) && Total(db.txns, Tagged(Sale(i))) == 1
  {
    ReachableInv(db);
    assert InvoiceOk(db.invoices[i], i, db.refunds, db.txns);
  }

  lemma {:induction false} AtMostOneKeyed(refunds: seq<CashRefund>, employee: Employee, key: string)
    requires forall i, j :: 0 <= i < j < |refunds| ==> refunds[i].employee != refunds[j].employee || refunds[i].key != refunds[j].key
    ensures 0 <= Total(refunds, KeyedBy(employee, key)) <= 1
  {
    if refunds != [] {
      var n := |refunds| - 1;
      AtMostOneKeyed(refunds[..n], employee, key);
      if KeyedBy(employee, key)(refunds[n]) == 1 {
        TotalZero(refunds[..n], KeyedBy(employee, key));
      }
    }
  }

  /** A cash refund with a given employee and key takes effect at most once over a whole run, even
      when housekeeping purges its idempotency row between replays. */
  lemma RefundTakesEffectOnce(db: Db, employee: Employee, key: string)
    requires Reachable(db)
    ensures Total(db.refunds, KeyedBy(employee, key)) <= 1
  {
    ReachableInv(db);
    AtMostOneKeyed(db.refunds, employee, key);
  }

  /** Once a refund is recorded, repeating its key at any later time moves no money. After its
      idempotency row is purged, the same request still answers with the recorded refund. */
  lemma RefundReplayIsHarmless(db: Db, r: Id, later: seq<Event>, request: RefundRequest, shift: Id, handedOff: bool)
    requires Reachable(db) && r < |db.refunds| && AllAdmissible(later)
    ensures var after := Run(db, later); var row := db.refunds[r];
            var o := RefundCommand(after, row.employee, row.key, request, shift, handedOff);
            && (o.Ok? ==> o.db.funds == after.funds && o.db.txns == after.txns && o.db.refunds == after.refunds
                          && o.db.invoices == after.invoices)
            && row.tx < |db.txns|
            && ((CommandKey(row.employee, REFUND_COMMAND, row.key) !in after.commands && row.request == request
                 && db.txns[row.tx].shift == Some(shift)) ==>
                  o.Ok? && o.response == Created(r))
  {
    ReachableInv(db);
    RunKeeps(db, later);
    RunExtends(db, later);
    var after := Run(db, later);
    var row := db.refunds[r];
    assert row.tx < |db.txns| && after.refunds[r] == row && after.txns[row.tx] == db.txns[row.tx];
    assert RefundByKey(after.refunds, row.employee, row.key) == r;
    hide Inv, Extends, Run, Reachable;
  }

  /** Housekeeping never purges a cashier-shift command, so repeating one after any later run does
      nothing and answers with the first response; a different request under its key is refused. */
  lemma CashierCommandReplays(db: Db, key: CommandKey, later: seq<Event>, request: Request, operation: Db -> Outcome)
    requires key in db.commands && "cashier-shift." <= key.operation
    ensures var after := Run(db, later);
            Execute(after, key, request, operation)
            == if request == db.commands[key].request then Ok(after, db.commands[key].response) else Fail(Conflict)
  {
    RunExtends(db, later);
  }

  lemma CashierCommandsAreProtected()
    ensures "cashier-shift." <= OPEN_COMMAND && "cashier-shift." <= MOVEMENT_COMMAND && "cashier-shift." <= CLOSE_COMMAND
    ensures Purgeable(REFUND_COMMAND)
  {
    assert REFUND_COMMAND[1] == 'n' && REFUND_COMMAND[2] == 'v' && "inventory.stock."[3] == 'e' && REFUND_COMMAND[3] == 'o';
    assert "cashier-shift."[0] == 'c' && REFUND_COMMAND[0] == 'i';
  }
}

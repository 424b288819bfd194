/** The tables behind the cash desk and every transaction that writes them: funds, cashier
    shifts, cash invoices and refunds, expense requests, handovers and bank statements.
    Each function is one serializable transaction: it answers with the new tables or refuses
    and leaves them as they were. Money is in hundredths. */
module CashTables {
  import opened Sums

  type Id = nat
  type Employee = nat
  type Money = nat

  datatype FundType = Cash | Bank | Other
  datatype Fund = Fund(kind: FundType, opening: int, balance: int, deleted: bool)

  datatype ShiftStatus = Open | Closed(reported: int, actual: int)
  datatype Shift = Shift(employee: Employee, fund: Id, startingCash: int, expectedStart: int, status: ShiftStatus)

  datatype Flow = Income | Expense

  /** What the row was written for. A sale names its invoice, a refund its refund row, and a
      handover row the handover its description names. */
  datatype Purpose = Sale(invoice: Id) | Manual | RefundOf(refund: Id)
                   | Variance(handover: Id) | Outgoing(handover: Id) | Incoming(handover: Id)
  datatype CashTx = CashTx(flow: Flow, amount: int, fund: Id, shift: Option<Id>, purpose: Purpose)

  datatype Method = CashPayment | Card | Transfer
  datatype PaymentStatus = Unpaid | Paid | PartiallyRefunded | Refunded | Voided
  datatype Invoice = Invoice(total: int, paidBy: Method, status: PaymentStatus, shift: Option<Id>, cashTx: Option<Id>)

  datatype RefundRequest = RefundRequest(invoice: Id, amount: int, reason: string)
  datatype CashRefund = CashRefund(request: RefundRequest, employee: Employee, key: string, tx: Id)

  /** A succeeded refund through the payment provider; `shift` is the shift of the payment attempt, on
      which the invoice was booked too. */
  datatype ProviderRefund = ProviderRefund(invoice: Id, amount: int, shift: Option<Id>)

  datatype RequestStatus = Pending | Approved | Rejected | Cancelled
  datatype ExpenseRequest = ExpenseRequest(amount: int, requestedBy: Employee, shift: Id, fund: Id,
                                           status: RequestStatus, tx: Option<Id>)

  datatype Settlement = NotRequired | AwaitingBank | Settled
  datatype Handover = Handover(shift: Id, source: Id, destination: Id, requestedBy: Employee,
                               expected: int, counted: int, variance: int, retained: int, transfer: int,
                               status: RequestStatus, settlement: Settlement,
                               bankRef: Option<string>, evidence: Option<string>,
                               sourceTx: Option<Id>, destinationTx: Option<Id>, varianceTx: Option<Id>)

  datatype Match = Unmatched | Mismatch | Ignored | Matched(handover: Id)
  datatype Line = Line(externalId: string, credit: bool, amount: int, bankRef: Option<string>)
  datatype Entry = Entry(statement: Id, fund: Id, line: Line, matching: Match)

  /** What a command asked for; stands for the hash of the request. */
  datatype Request = OpenRequest(fund: Id, startingCash: int)
                   | MovementRequest(shift: Id, flow: Flow, amount: int)
                   | CloseRequest(shift: Id, reported: int, hasNote: bool)
                   | CashRefundRequest(refund: RefundRequest, shift: Id)
  datatype Response = Created(id: Id) | MovementMade(tx: Id) | ApprovalNeeded(request: Id)
                    | ShiftClosed(shift: Id, difference: int) | Done
  datatype CommandKey = CommandKey(employee: Employee, operation: string, key: string)
  datatype CommandRow = CommandRow(request: Request, response: Response)

  datatype Db = Db(funds: seq<Fund>, shifts: seq<Shift>, txns: seq<CashTx>, invoices: seq<Invoice>,
                   refunds: seq<CashRefund>, requests: seq<ExpenseRequest>, handovers: seq<Handover>,
                   statements: seq<Id>, entries: seq<Entry>, commands: map<CommandKey, CommandRow>,
                   reversals: seq<ProviderRefund>)

  const EMPTY: Db := Db([], [], [], [], [], [], [], [], [], map[], [])

  datatype Error = NotFound | Conflict | Forbidden | BadRequest
  datatype Outcome = Ok(db: Db, response: Response) | Fail(error: Error)

  // ----- rows -----

  function Signed(t: CashTx): int {
    if t.flow == Income then t.amount else -t.amount
  }

  /** Writes one ledger row and moves its fund's balance by it. */
  function Post(db: Db, t: CashTx): Db
    requires t.fund < |db.funds|
  {
    var fund := db.funds[t.fund];
    db.(funds := db.funds[t.fund := fund.(balance := fund.balance + Signed(t))], txns := db.txns + [t])
  }

  predicate Settleable(s: PaymentStatus) {
    s == Paid || s == PartiallyRefunded || s == Refunded
  }

  // ----- the columns that calculateReconciliation sums -----

  function SaleIn(s: Id): Invoice -> int {
    (i: Invoice) => if i.shift == Some(s) && i.paidBy == CashPayment && Settleable(i.status) then i.total else 0
  }

  function MovementIn(s: Id, flow: Flow): CashTx -> int {
    (t: CashTx) => if t.shift == Some(s) && !t.purpose.Sale? && !t.purpose.RefundOf? && t.flow == flow then t.amount else 0
  }

  function RefundIn(txns: seq<CashTx>, s: Id): CashRefund -> int {
    (r: CashRefund) => if r.tx < |txns| && txns[r.tx].shift == Some(s) then r.request.amount else 0
  }

  /** The cash a shift should end with, recomputed from its invoices, movements and refunds. */
  function Reconciled(db: Db, s: Id): int
    requires s < |db.shifts|
  {
    db.shifts[s].expectedStart + Total(db.invoices, SaleIn(s))
    + Total(db.txns, MovementIn(s, Income)) - Total(db.txns, MovementIn(s, Expense))
    - Total(db.refunds, RefundIn(db.txns, s))
  }

  function RefundedOn(i: Id): CashRefund -> int {
    (r: CashRefund) => if r.request.invoice == i then r.request.amount else 0
  }

  function ReversedOn(i: Id): ProviderRefund -> int {
    (r: ProviderRefund) => if r.invoice == i then r.amount else 0
  }

  function ReversedIn(s: Id): ProviderRefund -> int {
    (r: ProviderRefund) => if r.shift == Some(s) then r.amount else 0
  }

  // ----- lookups -----

  /** The employee's open shift, or the number of shifts when there is none. */
  function OpenShiftOf(shifts: seq<Shift>, employee: Employee): (s: nat)
    ensures s <= |shifts|
    ensures s < |shifts| ==> shifts[s].employee == employee && shifts[s].status == Open
    ensures s == |shifts| ==> forall i :: 0 <= i < |shifts| ==> shifts[i].employee != employee || shifts[i].status != Open
  {
    if shifts == [] then 0
    else
      var n := |shifts| - 1;
      var s := OpenShiftOf(shifts[..n], employee);
      if s < n then s else if shifts[n].employee == employee && shifts[n].status == Open then n else n + 1
  }

  /** `requireOpenShift`: the employee's open shift on an active cash fund. */
  predicate HasTill(db: Db, employee: Employee) {
    var s := OpenShiftOf(db.shifts, employee);
    s < |db.shifts| && db.shifts[s].fund < |db.funds|
    && !db.funds[db.shifts[s].fund].deleted && db.funds[db.shifts[s].fund].kind == Cash
  }

  predicate FundHasOpenShift(shifts: seq<Shift>, fund: Id) {
    exists s :: 0 <= s < |shifts| && shifts[s].fund == fund && shifts[s].status == Open
  }

  predicate HasPendingHandoverFrom(handovers: seq<Handover>, fund: Id) {
    exists h :: 0 <= h < |handovers| && handovers[h].source == fund && handovers[h].status == Pending
  }

  predicate HasUnfinishedHandover(handovers: seq<Handover>, fund: Id) {
    exists h :: 0 <= h < |handovers|
      && (handovers[h].status == Pending || handovers[h].settlement == AwaitingBank)
      && (handovers[h].source == fund || handovers[h].destination == fund)
  }

  predicate ShiftHasActiveHandover(handovers: seq<Handover>, shift: Id) {
    exists h :: 0 <= h < |handovers| && handovers[h].shift == shift
      && (handovers[h].status == Pending || handovers[h].status == Approved)
  }

  predicate HasPendingRequest(requests: seq<ExpenseRequest>, shift: Id) {
    exists r :: 0 <= r < |requests| && requests[r].shift == shift && requests[r].status == Pending
  }

  /** `assertFundsHaveNoOpenShift`. */
  predicate FundsBusy(db: Db, source: Id, destination: Id)
    requires destination < |db.funds|
  {
    FundHasOpenShift(db.shifts, source)
    || (db.funds[destination].kind == Cash && FundHasOpenShift(db.shifts, destination))
  }

  /** The refund recorded for this employee and key, or the number of refunds when there is none. */
  function RefundByKey(refunds: seq<CashRefund>, employee: Employee, key: string): (r: nat)
    ensures r <= |refunds|
    ensures r < |refunds| ==> refunds[r].employee == employee && refunds[r].key == key
    ensures r == |refunds| ==> forall i :: 0 <= i < |refunds| ==> refunds[i].employee != employee || refunds[i].key != key
  {
    if refunds == [] then 0
    else
      var n := |refunds| - 1;
      var r := RefundByKey(refunds[..n], employee, key);
      if r < n then r else if refunds[n].employee == employee && refunds[n].key == key then n else n + 1
  }

  /** The handover to `fund` under a bank reference, or the number of handovers. */
  function HandoverByReference(handovers: seq<Handover>, fund: Id, reference: string): (h: nat)
    ensures h <= |handovers|
    ensures h < |handovers| ==> handovers[h].destination == fund && handovers[h].bankRef == Some(reference)
    ensures h == |handovers| ==>
              forall i :: 0 <= i < |handovers| ==> handovers[i].destination != fund || handovers[i].bankRef != Some(reference)
  {
    if handovers == [] then 0
    else
      var n := |handovers| - 1;
      var h := HandoverByReference(handovers[..n], fund, reference);
      if h < n then h
      else if handovers[n].destination == fund && handovers[n].bankRef == Some(reference) then n else n + 1
  }

  predicate ReferenceTaken(handovers: seq<Handover>, except: Id, fund: Id, reference: string) {
    exists i :: 0 <= i < |handovers| && i != except && handovers[i].destination == fund && handovers[i].bankRef == Some(reference)
  }

  predicate MatchedElsewhere(entries: seq<Entry>, except: Id, handover: Id) {
    exists i :: 0 <= i < |entries| && i != except && entries[i].matching == Matched(handover)
  }

  // ----- funds -----

  function CreateFund(db: Db, kind: FundType, opening: Money): Outcome {
    Ok(db.(funds := db.funds + [Fund(kind, opening, opening, false)]), Created(|db.funds|))
  }

  function RetypeFund(db: Db, fund: Id, kind: FundType): Outcome {
    if fund >= |db.funds| || db.funds[fund].deleted then Fail(NotFound)
    else if kind != db.funds[fund].kind
            && (fund in db.statements || HasUnfinishedHandover(db.handovers, fund) || FundHasOpenShift(db.shifts, fund)) then
      Fail(Conflict)
    else Ok(db.(funds := db.funds[fund := db.funds[fund].(kind := kind)]), Done)
  }

  function RemoveFund(db: Db, fund: Id): Outcome {
    if fund >= |db.funds| || db.funds[fund].deleted then Fail(NotFound)
    else if db.funds[fund].balance != 0 || FundHasOpenShift(db.shifts, fund) || HasUnfinishedHandover(db.handovers, fund) then
      Fail(Conflict)
    else Ok(db.(funds := db.funds[fund := db.funds[fund].(deleted := true)]), Done)
  }

  // ----- shifts -----

  function OpenShift(db: Db, employee: Employee, fund: Id, startingCash: Money): Outcome {
    if fund >= |db.funds| || db.funds[fund].deleted then Fail(NotFound)
    else if db.funds[fund].kind != Cash || HasPendingHandoverFrom(db.handovers, fund) then Fail(Conflict)
    else if OpenShiftOf(db.shifts, employee) < |db.shifts| || FundHasOpenShift(db.shifts, fund) then Fail(Conflict)
    else
      var shift := Shift(employee, fund, startingCash, db.funds[fund].balance, Open);
      Ok(db.(shifts := db.shifts + [shift]), Created(|db.shifts|))
  }

  /** `postMovement`: an income always posts, an expense only from a sufficient balance. */
  function PostMovement(db: Db, shift: Id, fund: Id, flow: Flow, amount: Money): Outcome {
    if fund >= |db.funds| || db.funds[fund].deleted || (flow == Expense && db.funds[fund].balance < amount) then Fail(Conflict)
    else Ok(Post(db, CashTx(flow, amount, fund, Some(shift), Manual)), MovementMade(|db.txns|))
  }

  function AddMovement(db: Db, employee: Employee, expected: Id, flow: Flow, amount: Money, threshold: Money): Outcome {
    var s := OpenShiftOf(db.shifts, employee);
    if !HasTill(db, employee) || s != expected then Fail(Conflict)
    else if flow == Expense && amount >= threshold then
      var request := ExpenseRequest(amount, employee, s, db.shifts[s].fund, Pending, None);
      Ok(db.(requests := db.requests + [request]), ApprovalNeeded(|db.requests|))
    else PostMovement(db, s, db.shifts[s].fund, flow, amount)
  }

  function ApproveExpense(db: Db, id: Id, employee: Employee): Outcome {
    if id >= |db.requests| then Fail(NotFound)
    else
      var r := db.requests[id];
      if r.status != Pending then Fail(Conflict)
      else if r.requestedBy == employee then Fail(Forbidden)
      else if r.shift >= |db.shifts| || r.fund >= |db.funds| || db.shifts[r.shift].status != Open
              || db.shifts[r.shift].fund != r.fund || db.funds[r.fund].deleted || db.funds[r.fund].kind != Cash
              || r.amount < 0 then
        Fail(Conflict)
      else
        match PostMovement(db, r.shift, r.fund, Expense, r.amount)
        case Fail(e) => Fail(e)
        case Ok(d, _) =>
          Ok(d.(requests := d.requests[id := r.(status := Approved, tx := Some(|db.txns|))]), MovementMade(|db.txns|))
  }

  function ResolveExpense(db: Db, id: Id, employee: Employee, status: RequestStatus): Outcome {
    if id >= |db.requests| then Fail(NotFound)
    else if db.requests[id].status != Pending then Fail(Conflict)
    else if status == Rejected && db.requests[id].requestedBy == employee then Fail(Forbidden)
    else if status == Cancelled && db.requests[id].requestedBy != employee then Fail(Forbidden)
    else if status != Rejected && status != Cancelled then Fail(BadRequest)
    else Ok(db.(requests := db.requests[id := db.requests[id].(status := status)]), Done)
  }

  function Abs(x: int): nat { if x < 0 then -x else x }

  function CloseShift(db: Db, employee: Employee, expected: Id, reported: Money, hasNote: bool,
                      noteThreshold: Money, unresolvedPayments: nat, activeSessions: nat): Outcome {
    if expected >= |db.shifts| || db.shifts[expected].employee != employee || db.shifts[expected].status != Open then Fail(Conflict)
    else if HasPendingRequest(db.requests, expected) || unresolvedPayments > 0 || activeSessions > 0 then Fail(Conflict)
    else
      var actual := Reconciled(db, expected);
      var difference := reported - actual;
      if difference != 0 && Abs(difference) >= noteThreshold && !hasNote then Fail(BadRequest)
      else
        var closed := db.shifts[expected].(status := Closed(reported, actual));
        Ok(db.(shifts := db.shifts[expected := closed]), ShiftClosed(expected, difference))
  }

  // ----- invoices -----

  /** `assertPaidPaymentAmount` after `resolvePaidAmountTendered`. */
  predicate TenderSufficient(paidBy: Method, tendered: Option<Money>, total: int) {
    (paidBy == CashPayment ==> tendered.Some?) && (tendered.Some? ==> tendered.value >= total)
  }

  /** Marks an invoice paid at the employee's till; a cash payment also writes the sale row, which
      the database refuses for a zero amount. */
  function Pay(db: Db, id: Id, employee: Employee, paidBy: Method, tendered: Option<Money>): Outcome
    requires id < |db.invoices|
  {
    var invoice := db.invoices[id];
    var s := OpenShiftOf(db.shifts, employee);
    if !TenderSufficient(paidBy, tendered, invoice.total) then Fail(BadRequest)
    else if !HasTill(db, employee) then Fail(Conflict)
    else
      var paid := invoice.(status := Paid, paidBy := paidBy, shift := Some(s));
      if paidBy != CashPayment then Ok(db.(invoices := db.invoices[id := paid]), Done)
      else if invoice.total <= 0 then Fail(Conflict)
      else
        var d := Post(db, CashTx(Income, invoice.total, db.shifts[s].fund, Some(s), Sale(id)));
        Ok(d.(invoices := d.invoices[id := paid.(cashTx := Some(|db.txns|))]), Done)
  }

  /** `createInvoice`: an unpaid invoice. */
  function IssueInvoice(db: Db, total: Money): Outcome {
    Ok(db.(invoices := db.invoices + [Invoice(total, CashPayment, Unpaid, None, None)]), Created(|db.invoices|))
  }

  /** `checkoutInvoice`: issue and pay in one transaction. */
  function Checkout(db: Db, employee: Employee, total: Money, paidBy: Method, tendered: Option<Money>): Outcome {
    if paidBy == Transfer then Fail(BadRequest)
    else Pay(IssueInvoice(db, total).db, |db.invoices|, employee, paidBy, tendered)
  }

  function PayInvoice(db: Db, id: Id, employee: Employee, paidBy: Method, tendered: Option<Money>): Outcome {
    if id >= |db.invoices| then Fail(NotFound)
    else if db.invoices[id].status != Unpaid || paidBy == Transfer then Fail(BadRequest)
    else Pay(db, id, employee, paidBy, tendered)
  }

  function VoidInvoice(db: Db, id: Id): Outcome {
    if id >= |db.invoices| then Fail(NotFound)
    else if db.invoices[id].status != Unpaid then Fail(BadRequest)
    else Ok(db.(invoices := db.invoices[id := db.invoices[id].(status := Voided)]), Done)
  }

  /** `completeOnlinePayment`: a provider-confirmed transfer, booked on the attempt's shift. */
  function CompleteOnline(db: Db, id: Id, shift: Id): Outcome {
    if id >= |db.invoices| then Fail(NotFound)
    else if db.invoices[id].status != Unpaid then Fail(BadRequest)
    else Ok(db.(invoices := db.invoices[id := db.invoices[id].(status := Paid, paidBy := Transfer, shift := Some(shift))]), Done)
  }

  /** `completeSuccessfulRefund`: a provider refund that succeeded moves its invoice on. What it may
      amount to was reserved when it was created; the cash desk's own refunds never touch such an invoice. */
  function BookProviderRefund(db: Db, id: Id, amount: Money): Outcome {
    if id >= |db.invoices| then Fail(NotFound)
    else
      var v := db.invoices[id];
      if v.paidBy != Transfer || (v.status != Paid && v.status != PartiallyRefunded) then Fail(Conflict)
      else
        var reversed := Total(db.reversals, ReversedOn(id)) + amount;
        var status := if reversed >= v.total then Refunded else PartiallyRefunded;
        Ok(db.(reversals := db.reversals + [ProviderRefund(id, amount, v.shift)], invoices := db.invoices[id := v.(status := status)]),
           Created(|db.reversals|))
  }

  // ----- cash refunds -----

  function RefundCash(db: Db, employee: Employee, key: string, request: RefundRequest, expected: Id, handedOff: bool): Outcome {
    var replay := RefundByKey(db.refunds, employee, key);
    if replay < |db.refunds| then
      var r := db.refunds[replay];
      if r.request != request || r.tx >= |db.txns| || db.txns[r.tx].shift != Some(expected) then Fail(Conflict)
      else Ok(db, Created(replay))
    else if request.invoice >= |db.invoices| then Fail(NotFound)
    else
      var invoice := db.invoices[request.invoice];
      var s := OpenShiftOf(db.shifts, employee);
      if invoice.paidBy != CashPayment || (invoice.status != Paid && invoice.status != PartiallyRefunded) then Fail(Conflict)
      else if !SaleOnLedger(db, request.invoice) || !handedOff then Fail(Conflict)
      else
        var refunded := Total(db.refunds, RefundedOn(request.invoice)) + request.amount;
        if refunded > invoice.total then Fail(Conflict)
        else if !HasTill(db, employee) || s != expected then Fail(Conflict)
        else if db.funds[db.shifts[s].fund].balance < request.amount then Fail(Conflict)
        else
          var d := Post(db, CashTx(Expense, request.amount, db.shifts[s].fund, Some(s), RefundOf(|db.refunds|)));
          var status := if refunded == invoice.total then Refunded else PartiallyRefunded;
          Ok(d.(refunds := d.refunds + [CashRefund(request, employee, key, |db.txns|)],
                invoices := d.invoices[request.invoice := invoice.(status := status)]),
             Created(|db.refunds|))
  }

  /** The refund guard on the invoice's own ledger row. */
  predicate SaleOnLedger(db: Db, i: Id)
    requires i < |db.invoices|
  {
    var tx := db.invoices[i].cashTx;
    tx.Some? && tx.value < |db.txns| && db.txns[tx.value].flow == Income && db.txns[tx.value].amount == db.invoices[i].total
  }

  // ----- handovers -----

  function RequestHandover(db: Db, employee: Employee, shift: Id, destination: Id, retained: Money): Outcome {
    if shift >= |db.shifts| then Fail(NotFound)
    else
      var s := db.shifts[shift];
      if s.employee != employee then Fail(Forbidden)
      else if s.status == Open || s.fund >= |db.funds| then Fail(Conflict)
      else if db.funds[s.fund].deleted || db.funds[s.fund].kind != Cash || s.fund == destination then Fail(Conflict)
      else if destination >= |db.funds| || db.funds[destination].deleted then Fail(NotFound)
      else if FundsBusy(db, s.fund, destination) || db.funds[s.fund].balance != s.status.actual then Fail(Conflict)
      else if retained >= s.status.reported || ShiftHasActiveHandover(db.handovers, shift) then Fail(Conflict)
      else
        var h := Handover(shift, s.fund, destination, employee, s.status.actual, s.status.reported,
                          s.status.reported - s.status.actual, retained, s.status.reported - retained,
                          Pending, NotRequired, None, None, None, None, None);
        Ok(db.(handovers := db.handovers + [h]), Created(|db.handovers|))
  }

  /** The rows an approval writes on the source fund: the counting variance, when there is one, and
      the outgoing transfer. */
  function VarianceRow(id: Id, h: Handover): seq<CashTx> {
    if h.variance == 0 then []
    else [CashTx(if h.variance > 0 then Income else Expense, Abs(h.variance), h.source, None, Variance(id))]
  }

  function OutgoingRow(id: Id, h: Handover): CashTx {
    CashTx(Expense, h.transfer, h.source, None, Outgoing(id))
  }

  function IncomingRow(id: Id, h: Handover): CashTx {
    CashTx(Income, h.transfer, h.destination, None, Incoming(id))
  }

  /** Approval overwrites the source balance with the retained cash. A bank destination is credited
      only on settlement; any other one at once. */
  function ApproveHandover(db: Db, id: Id, employee: Employee): Outcome {
    if id >= |db.handovers| then Fail(NotFound)
    else
      var h := db.handovers[id];
      if h.status != Pending then Fail(Conflict)
      else if h.requestedBy == employee then Fail(Forbidden)
      else if h.source >= |db.funds| || h.destination >= |db.funds| || db.funds[h.source].deleted
              || db.funds[h.source].kind != Cash || db.funds[h.destination].deleted then
        Fail(Conflict)
      else if FundsBusy(db, h.source, h.destination) || db.funds[h.source].balance != h.expected then Fail(Conflict)
      else
        var rows := VarianceRow(id, h);
        var varianceTx := if rows == [] then None else Some(|db.txns|);
        var sourceTx := Some(|db.txns| + |rows|);
        var d := db.(funds := db.funds[h.source := db.funds[h.source].(balance := h.retained)],
                     txns := db.txns + rows + [OutgoingRow(id, h)]);
        var approved := h.(status := Approved, sourceTx := sourceTx, varianceTx := varianceTx);
        if db.funds[h.destination].kind == Bank then
          Ok(d.(handovers := d.handovers[id := approved.(settlement := AwaitingBank)]), Done)
        else
          var e := Post(d, IncomingRow(id, h));
          Ok(e.(handovers := e.handovers[id := approved.(settlement := NotRequired, destinationTx := Some(|d.txns|))]), Done)
  }

  function DeclineHandover(db: Db, id: Id, employee: Employee, status: RequestStatus): Outcome {
    if id >= |db.handovers| then Fail(NotFound)
    else if db.handovers[id].status != Pending then Fail(Conflict)
    else if status == Rejected && db.handovers[id].requestedBy == employee then Fail(Forbidden)
    else if status == Cancelled && db.handovers[id].requestedBy != employee then Fail(Forbidden)
    else if status != Rejected && status != Cancelled then Fail(BadRequest)
    else Ok(db.(handovers := db.handovers[id := db.handovers[id].(status := status)]), Done)
  }

  /** `settleInTransaction`: credits the bank fund and records the deposit's references. */
  function Settle(db: Db, id: Id, employee: Employee, reference: string, evidence: string): Outcome {
    if id >= |db.handovers| then Fail(NotFound)
    else
      var h := db.handovers[id];
      if h.status != Approved || h.settlement != AwaitingBank then Fail(Conflict)
      else if h.requestedBy == employee then Fail(Forbidden)
      else if h.destination >= |db.funds| || db.funds[h.destination].deleted || db.funds[h.destination].kind != Bank then Fail(Conflict)
      else if (h.bankRef.Some? && h.bankRef.value != reference) || (h.evidence.Some? && h.evidence.value != evidence) then Fail(Conflict)
      else if ReferenceTaken(db.handovers, id, h.destination, reference) then Fail(Conflict)
      else
        var d := Post(db, IncomingRow(id, h));
        Ok(d.(handovers := d.handovers[id := h.(settlement := Settled, bankRef := Some(reference), evidence := Some(evidence),
                                               destinationTx := Some(|db.txns|))]),
           Done)
  }

  function RegisterDeposit(db: Db, id: Id, employee: Employee, reference: string, evidence: string): Outcome {
    if id >= |db.handovers| then Fail(NotFound)
    else
      var h := db.handovers[id];
      if h.status != Approved || h.settlement != AwaitingBank then Fail(Conflict)
      else if h.requestedBy != employee then Fail(Forbidden)
      else if h.destination >= |db.funds| || db.funds[h.destination].deleted || db.funds[h.destination].kind != Bank then Fail(Conflict)
      else if h.bankRef.Some? || h.evidence.Some? then
        if h.bankRef == Some(reference) && h.evidence == Some(evidence) then Ok(db, Done) else Fail(Conflict)
      else if ReferenceTaken(db.handovers, id, h.destination, reference) then Fail(Conflict)
      else Ok(db.(handovers := db.handovers[id := h.(bankRef := Some(reference), evidence := Some(evidence))]), Done)
  }

  // ----- bank statements -----

  predicate DistinctIds(lines: seq<Line>) {
    forall i, j :: 0 <= i < j < |lines| ==> lines[i].externalId != lines[j].externalId
  }

  function NewEntries(statement: Id, fund: Id, lines: seq<Line>): (entries: seq<Entry>)
    ensures |entries| == |lines|
    ensures forall i :: 0 <= i < |entries| ==>
              entries[i] == Entry(statement, fund, lines[i], if lines[i].credit then Unmatched else Ignored)
  {
    seq(|lines|, i requires 0 <= i < |lines| => Entry(statement, fund, lines[i], if lines[i].credit then Unmatched else Ignored))
  }

  /** The commit of `createImport`. The fund's type was checked before this transaction, so the
      commit relies only on the fund's existence. */
  function ImportStatement(db: Db, fund: Id, lines: seq<Line>): Outcome {
    if fund >= |db.funds| then Fail(NotFound)
    else if !DistinctIds(lines) || (exists l, e :: 0 <= l < |lines| && 0 <= e < |db.entries|
                                                  && db.entries[e].fund == fund && db.entries[e].line.externalId == lines[l].externalId) then
      Fail(Conflict)
    else Ok(db.(statements := db.statements + [fund], entries := db.entries + NewEntries(|db.statements|, fund, lines)),
            Created(|db.statements|))
  }

  predicate OpenMatch(m: Match) { m == Unmatched || m == Mismatch }

  /** A conditional update of one entry's match, as `markMismatch`, `markUnmatched` and the link write. */
  function Remark(db: Db, id: Id, m: Match): Db
    requires id < |db.entries|
  {
    if OpenMatch(db.entries[id].matching) then db.(entries := db.entries[id := db.entries[id].(matching := m)]) else db
  }

  /** One transaction of `reconcileEntry`. A failure rolls everything back; the caller then marks
      the entry with `MarkMismatch` in a transaction of its own. */
  function ReconcileEntry(db: Db, id: Id, employee: Employee): Outcome {
    if id >= |db.entries| then Fail(NotFound)
    else
      var e := db.entries[id];
      if !OpenMatch(e.matching) then Ok(db, Done)
      else if e.line.bankRef == None then Ok(Remark(db, id, Unmatched), Done)
      else
        var reference := e.line.bankRef.value;
        var h := HandoverByReference(db.handovers, e.fund, reference);
        if h == |db.handovers| then Ok(Remark(db, id, Unmatched), Done)
        else
          var ho := db.handovers[h];
          if ho.transfer != e.line.amount then Ok(Remark(db, id, Mismatch), Done)
          else if ho.status != Approved || ho.settlement == NotRequired then Ok(Remark(db, id, Mismatch), Done)
          else if MatchedElsewhere(db.entries, id, h) then Ok(Remark(db, id, Mismatch), Done)
          else if ho.evidence == None then Ok(Remark(db, id, Mismatch), Done)
          else if ho.settlement == AwaitingBank then
            match Settle(db, h, employee, reference, ho.evidence.value)
            case Fail(error) => Fail(error)
            case Ok(d, _) => Ok(Remark(d, id, Matched(h)), Done)
          else Ok(Remark(db, id, Matched(h)), Done)
  }

  function MarkMismatch(db: Db, id: Id): Outcome {
    if id >= |db.entries| then Ok(db, Done) else Ok(Remark(db, id, Mismatch), Done)
  }

  function IgnoreEntry(db: Db, id: Id): Outcome {
    if id >= |db.entries| then Fail(NotFound)
    else if db.entries[id].matching.Matched? then Fail(Conflict)
    else Ok(Remark(db, id, Ignored), Done)
  }

  // ----- idempotent commands -----

  const OPEN_COMMAND := "cashier-shift.open"
  const MOVEMENT_COMMAND := "cashier-shift.movement.create"
  const CLOSE_COMMAND := "cashier-shift.close"
  const REFUND_COMMAND := "invoice.cash-refund"

  /** The operations whose rows housekeeping may delete. */
  predicate Purgeable(operation: string) {
    !("inventory.stock." <= operation) && !("cashier-shift." <= operation)
  }

  /** `IdempotencyService.execute`: a known key replays its stored response, an unknown one runs the
      operation and stores the response in the same transaction. */
  function Execute(db: Db, key: CommandKey, request: Request, operation: Db -> Outcome): Outcome {
    if key in db.commands then
      if db.commands[key].request != request then Fail(Conflict) else Ok(db, db.commands[key].response)
    else
      match operation(db)
      case Fail(e) => Fail(e)
      case Ok(d, r) => Ok(d.(commands := d.commands[key := CommandRow(request, r)]), r)
  }

  /** Housekeeping deletes completed rows; any subset of the purgeable ones may be due. */
  function Purge(db: Db, victims: set<CommandKey>): Outcome {
    if exists k :: k in victims && !Purgeable(k.operation) then Fail(BadRequest)
    else Ok(db.(commands := db.commands - victims), Done)
  }

  // ----- runs -----

  datatype Event =
    | FundCreated(kind: FundType, opening: Money)
    | FundRetyped(fund: Id, kind: FundType)
    | FundRemoved(fund: Id)
    | ShiftOpening(employee: Employee, key: string, fund: Id, startingCash: Money)
    | Movement(employee: Employee, key: string, shift: Id, flow: Flow, amount: Money, threshold: Money)
    | ExpenseApproval(id: Id, employee: Employee)
    | ExpenseResolution(id: Id, employee: Employee, status: RequestStatus)
    | ShiftClosing(employee: Employee, key: string, shift: Id, reported: Money, hasNote: bool, noteThreshold: Money,
                   unresolvedPayments: nat, activeSessions: nat)
    | InvoiceIssued(total: Money)
    | InvoiceCheckout(employee: Employee, total: Money, paidBy: Method, tendered: Option<Money>)
    | InvoicePayment(id: Id, employee: Employee, paidBy: Method, tendered: Option<Money>)
    | InvoiceVoided(id: Id)
    | OnlinePayment(id: Id, shift: Id)
    | ProviderRefunded(id: Id, amount: Money)
    | Refunding(employee: Employee, key: string, request: RefundRequest, shift: Id, handedOff: bool)
    | HandoverRequested(employee: Employee, shift: Id, destination: Id, retained: Money)
    | HandoverApproved(id: Id, employee: Employee)
    | HandoverDeclined(id: Id, employee: Employee, status: RequestStatus)
    | HandoverSettled(id: Id, employee: Employee, reference: string, evidence: string)
    | DepositRegistered(id: Id, employee: Employee, reference: string, evidence: string)
    | StatementImported(fund: Id, lines: seq<Line>)
    | EntryReconciled(id: Id, employee: Employee)
    | EntryMarked(id: Id)
    | EntryIgnored(id: Id)
    | CommandsPurged(victims: set<CommandKey>)

  /** What the request schemas guarantee: movement and refund amounts are positive. */
  predicate Admissible(e: Event) {
    (e.Movement? ==> e.amount > 0) && (e.Refunding? ==> e.request.amount > 0) && (e.ProviderRefunded? ==> e.amount > 0)
  }

  function Step(db: Db, event: Event): Outcome {
    match event
    case FundCreated(kind, opening) => CreateFund(db, kind, opening)
    case FundRetyped(fund, kind) => RetypeFund(db, fund, kind)
    case FundRemoved(fund) => RemoveFund(db, fund)
    case ShiftOpening(employee, key, fund, cash) => OpenCommand(db, employee, key, fund, cash)
    case Movement(employee, key, shift, flow, amount, threshold) => MovementCommand(db, employee, key, shift, flow, amount, threshold)
    case ExpenseApproval(id, employee) => ApproveExpense(db, id, employee)
    case ExpenseResolution(id, employee, status) => ResolveExpense(db, id, employee, status)
    case ShiftClosing(employee, key, shift, reported, hasNote, note, payments, sessions) =>
      CloseCommand(db, employee, key, shift, reported, hasNote, note, payments, sessions)
    case InvoiceIssued(total) => IssueInvoice(db, total)
    case InvoiceCheckout(employee, total, paidBy, tendered) => Checkout(db, employee, total, paidBy, tendered)
    case InvoicePayment(id, employee, paidBy, tendered) => PayInvoice(db, id, employee, paidBy, tendered)
    case InvoiceVoided(id) => VoidInvoice(db, id)
    case OnlinePayment(id, shift) => CompleteOnline(db, id, shift)
    case ProviderRefunded(id, amount) => BookProviderRefund(db, id, amount)
    case Refunding(employee, key, request, shift, handedOff) => RefundCommand(db, employee, key, request, shift, handedOff)
    case HandoverRequested(employee, shift, destination, retained) => RequestHandover(db, employee, shift, destination, retained)
    case HandoverApproved(id, employee) => ApproveHandover(db, id, employee)
    case HandoverDeclined(id, employee, status) => DeclineHandover(db, id, employee, status)
    case HandoverSettled(id, employee, reference, evidence) => Settle(db, id, employee, reference, evidence)
    case DepositRegistered(id, employee, reference, evidence) => RegisterDeposit(db, id, employee, reference, evidence)
    case StatementImported(fund, lines) => ImportStatement(db, fund, lines)
    case EntryReconciled(id, employee) => ReconcileEntry(db, id, employee)
    case EntryMarked(id) => MarkMismatch(db, id)
    case EntryIgnored(id) => IgnoreEntry(db, id)
    case CommandsPurged(victims) => Purge(db, victims)
  }

  function OpenCommand(db: Db, employee: Employee, key: string, fund: Id, cash: Money): Outcome {
    Execute(db, CommandKey(employee, OPEN_COMMAND, key), OpenRequest(fund, cash), (d: Db) => OpenShift(d, employee, fund, cash))
  }

  function MovementCommand(db: Db, employee: Employee, key: string, shift: Id, flow: Flow, amount: Money, threshold: Money): Outcome {
    Execute(db, CommandKey(employee, MOVEMENT_COMMAND, key), MovementRequest(shift, flow, amount),
            (d: Db) => AddMovement(d, employee, shift, flow, amount, threshold))
  }

  function CloseCommand(db: Db, employee: Employee, key: string, shift: Id, reported: Money, hasNote: bool, note: Money,
                        payments: nat, sessions: nat): Outcome {
    Execute(db, CommandKey(employee, CLOSE_COMMAND, key), CloseRequest(shift, reported, hasNote),
            (d: Db) => CloseShift(d, employee, shift, reported, hasNote, note, payments, sessions))
  }

  function RefundCommand(db: Db, employee: Employee, key: string, request: RefundRequest, shift: Id, handedOff: bool): Outcome {
    Execute(db, CommandKey(employee, REFUND_COMMAND, key), CashRefundRequest(request, shift),
            (d: Db) => RefundCash(d, employee, key, request, shift, handedOff))
  }

  function Apply(db: Db, event: Event): Db {
    var o := Step(db, event);
    if o.Ok? then o.db else db
  }

  /** The tables after a run: the events commit one after the other, refused ones change nothing. */
  function Run(db: Db, events: seq<Event>): Db {
    if events == [] then db else Apply(Run(db, events[..|events| - 1]), events[|events| - 1])
  }
}

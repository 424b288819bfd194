/** The tables of the floor and the kitchen and every transaction that writes them: dining tables,
    order sessions, order items with their kitchen tickets and stock reservations, invoices, online
    order requests and stock. Each function is one serializable transaction: it answers with the new
    tables or refuses and leaves them as they were. Money is in hundredths, quantities of stock in
    ten-thousandths. */
module OrderTables {
  import opened Sums
  import MenuSelection

  type Id = nat

  datatype TableStatus = Empty | Occupied | Reserved
  datatype Table = Table(status: TableStatus, deleted: bool)

  /** The order request an online session was accepted from. */
  datatype SessionStatus = Active | Completed | SessionCancelled
  datatype Session = Session(table: Option<Id>, status: SessionStatus, request: Option<Id>)

  datatype ServeStatus = Pending | Cooking | Ready | Served | Cancelled

  /** `recipe` is the snapshot per unit, `held` the reservation rows, `ticket` the quantity on the kitchen
      ticket; `consumed` and `wasted` count how often stock was taken and written off for the item. */
  datatype Item = Item(session: Id, menuItem: nat, quantity: nat, price: nat, paid: bool, invoice: Option<Id>,
                       status: ServeStatus, recipe: map<Id, nat>, held: map<Id, nat>, ticket: Option<nat>,
                       remakeOf: Option<Id>, remadeAs: Option<Id>, consumed: nat, wasted: nat)

  datatype PaymentStatus = Unpaid | Paid | Voided | PartiallyRefunded | Refunded
  datatype Invoice = Invoice(session: Id, subTotal: int, discount: int, tax: int, total: int, status: PaymentStatus)

  /** `received` is what was ever put into stock, less what was taken out by hand. */
  datatype Stock = Stock(stock: int, reserved: int, received: int)

  /** A line as resolved against the menu: price, chosen options and recipe per unit. */
  datatype Line = Line(menuItem: nat, quantity: nat, price: nat, selected: seq<MenuSelection.Selected>, recipe: map<Id, nat>, routed: bool)
  datatype RequestStatus = RequestPending | Accepted | Rejected | RequestCancelled
  datatype Quote = Quote(menuItem: nat, quantity: nat, price: nat, selected: seq<MenuSelection.Selected>)
  datatype OnlineRequest = OnlineRequest(quotes: seq<Quote>, quotedSubtotal: int, pickupAt: Option<int>, expiresAt: int,
                                         status: RequestStatus, session: Option<Id>)

  datatype Db = Db(tables: seq<Table>, sessions: seq<Session>, items: seq<Item>, invoices: seq<Invoice>,
                   stock: seq<Stock>, requests: seq<OnlineRequest>)

  const EMPTY: Db := Db([], [], [], [], [], [])

  datatype Error = NotFound | BadRequest | Conflict | Insufficient
  datatype Outcome = Ok(db: Db) | Fail(error: Error)

  // ----- what items need and hold -----

  function Times(each: nat, quantity: nat): nat { each * quantity }

  /** What was taken from stock when `need` was consumed `n` times. */
  function Taken(n: nat, need: int): int { if n == 0 then 0 else Taken(n - 1, need) + need }

  function Need(it: Item): map<Id, nat> { map k | k in it.recipe :: Times(it.recipe[k], it.quantity) }

  function NeedFor(it: Item, k: Id): nat { if k in it.recipe then Times(it.recipe[k], it.quantity) else 0 }
  function HeldFor(it: Item, k: Id): nat { if k in it.held then it.held[k] else 0 }
  function UsedFor(it: Item, k: Id): int { Taken(it.consumed, NeedFor(it, k)) }

  function NeedOf(k: Id): Item -> int { (it: Item) => NeedFor(it, k) }
  function HeldOf(k: Id): Item -> int { (it: Item) => HeldFor(it, k) }
  function UsedOf(k: Id): Item -> int { (it: Item) => UsedFor(it, k) }

  function Amount(it: Item): int { Times(it.price, it.quantity) }
  function LineOf(v: Id): Item -> int { (it: Item) => if it.invoice == Some(v) then Amount(it) else 0 }
  function LineIn(s: Id): Item -> int { (it: Item) => if it.session == s then Amount(it) else 0 }

  predicate Prepared(s: ServeStatus) { s == Cooking || s == Ready || s == Served }

  function MapItems(items: seq<Item>, f: Item -> Item): (r: seq<Item>)
    ensures |r| == |items| && forall i :: 0 <= i < |items| ==> r[i] == f(items[i])
  {
    seq(|items|, i requires 0 <= i < |items| => f(items[i]))
  }

  // ----- stock -----

  predicate Reservable(it: Item, sel: Item -> bool) { sel(it) && it.status == Pending && it.held == map[] }

  function NewHold(sel: Item -> bool, k: Id): Item -> int {
    (it: Item) => if Reservable(it, sel) then NeedFor(it, k) else 0
  }

  function Hold(sel: Item -> bool): Item -> Item {
    (it: Item) => if Reservable(it, sel) then it.(held := Need(it)) else it
  }

  /** `reservePendingItems`: the selected pending items reserve their whole need or the call fails; an
      item that already has a reservation must still need exactly that. */
  function ReservePending(db: Db, sel: Item -> bool): Outcome {
    if exists i :: 0 <= i < |db.items| && sel(db.items[i]) && db.items[i].status == Pending
                   && db.items[i].held != map[] && db.items[i].held != Need(db.items[i]) then Fail(Conflict)
    else if exists k :: 0 <= k < |db.stock| && Total(db.items, NewHold(sel, k)) > 0
                        && db.stock[k].stock - db.stock[k].reserved < Total(db.items, NewHold(sel, k)) then Fail(Insufficient)
    else
      Ok(db.(items := MapItems(db.items, Hold(sel)),
             stock := seq(|db.stock|, k requires 0 <= k < |db.stock| =>
                                        db.stock[k].(reserved := db.stock[k].reserved + Total(db.items, NewHold(sel, k))))))
  }

  function OldHold(sel: Item -> bool, k: Id): Item -> int {
    (it: Item) => if sel(it) then HeldFor(it, k) else 0
  }

  function LetGo(sel: Item -> bool): Item -> Item {
    (it: Item) => if sel(it) then it.(held := map[]) else it
  }

  /** `releaseReservations` of the selected items. */
  function Release(db: Db, sel: Item -> bool): Outcome {
    if exists k :: 0 <= k < |db.stock| && db.stock[k].reserved < Total(db.items, OldHold(sel, k)) then Fail(Conflict)
    else
      Ok(db.(items := MapItems(db.items, LetGo(sel)),
             stock := seq(|db.stock|, k requires 0 <= k < |db.stock| =>
                                        db.stock[k].(reserved := db.stock[k].reserved - Total(db.items, OldHold(sel, k))))))
  }

  /** `consumeOrderItem`: the item takes its own reservation and whatever is free. */
  function Consume(db: Db, i: Id): Outcome
    requires i < |db.items|
  {
    var it := db.items[i];
    if it.held != map[] && it.held != Need(it) then Fail(Conflict)
    else if exists k :: 0 <= k < |db.stock| && k in it.recipe
                        && (db.stock[k].reserved < HeldFor(it, k)
                            || db.stock[k].stock - db.stock[k].reserved < NeedFor(it, k) - HeldFor(it, k)) then Fail(Insufficient)
    else
      Ok(db.(items := db.items[i := it.(held := map[], consumed := it.consumed + 1)],
             stock := seq(|db.stock|, k requires 0 <= k < |db.stock| =>
                                        db.stock[k].(stock := db.stock[k].stock - NeedFor(it, k),
                                                     reserved := db.stock[k].reserved - HeldFor(it, k)))))
  }

  // ----- sessions -----

  predicate ActiveAt(sessions: seq<Session>, s: Id, t: Id) {
    s < |sessions| && sessions[s].status == Active && sessions[s].table == Some(t)
  }

  function FindActive(sessions: seq<Session>, t: Id): (found: Option<Id>)
    ensures found.Some? ==> ActiveAt(sessions, found.value, t)
    ensures found.None? ==> forall s: Id :: !ActiveAt(sessions, s, t)
  {
    if sessions == [] then None
    else if sessions[|sessions| - 1].status == Active && sessions[|sessions| - 1].table == Some(t) then Some(|sessions| - 1)
    else
      var rest := FindActive(sessions[..|sessions| - 1], t);
      assert forall s: Id :: ActiveAt(sessions, s, t) ==> ActiveAt(sessions[..|sessions| - 1], s, t);
      rest
  }

  function SetTable(db: Db, t: Id, status: TableStatus): Db
    requires t < |db.tables|
  {
    db.(tables := db.tables[t := db.tables[t].(status := status)])
  }

  function SetSession(db: Db, s: Id, status: SessionStatus): Db
    requires s < |db.sessions|
  {
    db.(sessions := db.sessions[s := db.sessions[s].(status := status)])
  }

  predicate TableExists(db: Db, t: Id) { t < |db.tables| && !db.tables[t].deleted }

  function AddTable(db: Db): Outcome { Ok(db.(tables := db.tables + [Table(Empty, false)])) }

  function DeleteTable(db: Db, t: Id): Outcome {
    if !TableExists(db, t) then Fail(NotFound)
    else if db.tables[t].status != Empty then Fail(BadRequest)
    else if FindActive(db.sessions, t).Some? then Fail(Conflict)
    else Ok(db.(tables := db.tables[t := db.tables[t].(deleted := true)]))
  }

  /** `createOrderSession`; a reservation's check-in opens its session the same way. */
  function OpenSession(db: Db, table: Option<Id>, request: Option<Id>): Outcome {
    match table
    case None => Ok(db.(sessions := db.sessions + [Session(None, Active, request)]))
    case Some(t) =>
      if !TableExists(db, t) then Fail(NotFound)
      else if db.tables[t].status != Empty then Fail(BadRequest)
      else Ok(SetTable(db, t, Occupied).(sessions := db.sessions + [Session(table, Active, request)]))
  }

  // ----- items -----

  function NewItem(s: Id, l: Line): Item {
    Item(s, l.menuItem, l.quantity, l.price, false, None, Pending, l.recipe, map[],
         if l.routed then Some(l.quantity) else None, None, None, 0, 0)
  }

  predicate LineOk(l: Line, ingredients: nat) {
    l.quantity > 0 && forall k :: k in l.recipe ==> k < ingredients && l.recipe[k] > 0
  }

  function NewItems(s: Id, lines: seq<Line>): (r: seq<Item>)
    ensures |r| == |lines| && forall i :: 0 <= i < |lines| ==> r[i] == NewItem(s, lines[i])
  {
    seq(|lines|, i requires 0 <= i < |lines| => NewItem(s, lines[i]))
  }

  function AddLines(db: Db, s: Id, lines: seq<Line>): Db {
    db.(items := db.items + NewItems(s, lines))
  }

  function AddItems(db: Db, s: Id, lines: seq<Line>): Outcome {
    if s >= |db.sessions| then Fail(NotFound)
    else if db.sessions[s].status != Active then Fail(BadRequest)
    else if db.sessions[s].request.Some? then Fail(Conflict)
    else if exists i :: 0 <= i < |lines| && !LineOk(lines[i], |db.stock|) then Fail(NotFound)
    else Ok(AddLines(db, s, lines))
  }

  predicate ServeTransition(from: ServeStatus, to: ServeStatus) {
    || (from == Pending && to == Cooking)
    || (from == Cooking && (to == Ready || to == Served))
    || (from == Ready && to == Served)
  }

  /** A customer at the counter with a pickup code for this invoice. */
  datatype Pickup = NoPickup | WithCode(invoice: Id, valid: bool)

  function ChangeStatus(db: Db, i: Id, next: ServeStatus, handoffOnly: bool, pickup: Pickup, due: bool): Outcome {
    if i >= |db.items| || db.items[i].session >= |db.sessions| then Fail(NotFound)
    else
      var it := db.items[i];
      var s := db.sessions[it.session];
      if s.status == SessionCancelled || (s.status == Completed && it.invoice.None? && it.remakeOf.None?) then Fail(BadRequest)
      else if it.status == Cancelled then Fail(BadRequest)
      else if next == Served && s.request.Some? && it.remakeOf.None? && pickup.NoPickup? then Fail(Conflict)
      else if pickup.WithCode? && (it.invoice != Some(pickup.invoice) || !it.paid || pickup.invoice >= |db.invoices|
                                   || db.invoices[pickup.invoice].status != Paid || !pickup.valid) then Fail(Conflict)
      else if handoffOnly && (s.table.Some? || (it.status != Ready && it.status != Served)) then Fail(Conflict)
      else if next == Ready && s.table.Some? then Fail(BadRequest)
      else if it.status == next then Ok(db)
      else if !ServeTransition(it.status, next) then Fail(BadRequest)
      else if next == Cooking && !due then Fail(Conflict)
      else
        var d := db.(items := db.items[i := it.(status := next)]);
        if next == Cooking then Consume(d, i) else Ok(d)
  }

  /** Selects one row by its position; written over items because a reservation hangs on the item row. */
  function ReleaseItem(db: Db, i: Id): Outcome
    requires i < |db.items|
  {
    if exists k :: 0 <= k < |db.stock| && db.stock[k].reserved < HeldFor(db.items[i], k) then Fail(Conflict)
    else
      Ok(db.(items := db.items[i := db.items[i].(held := map[])],
             stock := seq(|db.stock|, k requires 0 <= k < |db.stock| =>
                                        db.stock[k].(reserved := db.stock[k].reserved - HeldFor(db.items[i], k)))))
  }

  function CancelItem(db: Db, i: Id, hasReason: bool): Outcome {
    if i >= |db.items| || db.items[i].session >= |db.sessions| then Fail(NotFound)
    else
      var it := db.items[i];
      var s := db.sessions[it.session];
      if it.remakeOf.None? && s.request.Some? then Fail(Conflict)
      else if it.remakeOf.None? && (it.paid || it.invoice.Some? || s.status != Active) then Fail(BadRequest)
      else if it.remakeOf.Some? && (s.status == SessionCancelled || it.status == Served) then Fail(Conflict)
      else if it.status == Cancelled then Fail(BadRequest)
      else if Prepared(it.status) && !hasReason then Fail(BadRequest)
      else if it.paid != it.remakeOf.Some? || it.invoice.Some? then Fail(Conflict)
      else
        var wasted := it.wasted + if Prepared(it.status) then 1 else 0;
        ReleaseItem(db.(items := db.items[i := it.(status := Cancelled, wasted := wasted)]), i)
  }

  predicate ItemIn(it: Item, s: Id) { it.session == s }

  predicate AnyPaidOrInvoiced(items: seq<Item>, s: Id) {
    exists i :: 0 <= i < |items| && ItemIn(items[i], s) && (items[i].paid || items[i].invoice.Some?)
  }

  predicate AnyProcessed(items: seq<Item>, s: Id) {
    exists i :: 0 <= i < |items| && ItemIn(items[i], s) && Prepared(items[i].status)
  }

  function LiveIn(s: Id): Item -> bool { (it: Item) => it.session == s && it.status != Cancelled }

  function CancelOpen(s: Id): Item -> Item {
    (it: Item) => if it.session == s && !it.paid && it.invoice.None? then it.(status := Cancelled) else it
  }

  /** Cancels the open items of a session and the session with them. */
  function CallOff(db: Db, s: Id): Outcome
    requires s < |db.sessions|
  {
    var r := Release(db, LiveIn(s));
    if r.Fail? then r
    else Ok(SetSession(r.db.(items := MapItems(r.db.items, CancelOpen(s))), s, SessionCancelled))
  }

  function CancelSession(db: Db, s: Id): Outcome {
    if s >= |db.sessions| then Fail(NotFound)
    else if db.sessions[s].status != Active then Fail(BadRequest)
    else if db.sessions[s].request.Some? then Fail(Conflict)
    else if AnyPaidOrInvoiced(db.items, s) || AnyProcessed(db.items, s) then Fail(BadRequest)
    else
      var r := CallOff(db, s);
      if r.Fail? || db.sessions[s].table.None? || db.sessions[s].table.value >= |db.tables| then r
      else Ok(SetTable(r.db, db.sessions[s].table.value, Empty))
  }

  // ----- tables -----

  function TransferTable(db: Db, s: Id, from: Id, to: Id): Outcome {
    if !TableExists(db, from) || !TableExists(db, to) then Fail(NotFound)
    else if db.tables[to].status != Empty then Fail(BadRequest)
    else if !ActiveAt(db.sessions, s, from) then Fail(Conflict)
    else if FindActive(db.sessions, to).Some? then Fail(Conflict)
    else
      var d := SetTable(db, to, Occupied).(sessions := db.sessions[s := db.sessions[s].(table := Some(to))]);
      Ok(if d.tables[from].status == Occupied then SetTable(d, from, Empty) else d)
  }

  /** The source sessions that are still active at one of the source tables. */
  function MergeSources(db: Db, sourceTables: set<Id>, sourceSessions: set<Id>): set<Id> {
    set s | s in sourceSessions && s < |db.sessions| && db.sessions[s].status == Active
            && db.sessions[s].table.Some? && db.sessions[s].table.value in sourceTables
  }

  function MoveOpen(from: set<Id>, to: Id): Item -> Item {
    (it: Item) => if it.session in from && !it.paid && it.invoice.None? then it.(session := to) else it
  }

  /** The request names one distinct session per source table and the destination is not among them. */
  predicate MergeRequestOk(sourceTables: set<Id>, destination: Id, sourceSessions: set<Id>, into: Id) {
    into !in sourceSessions && destination !in sourceTables && sourceTables != {}
  }

  function MergeTables(db: Db, sourceTables: set<Id>, destination: Id, sourceSessions: set<Id>, into: Id): Outcome {
    if !MergeRequestOk(sourceTables, destination, sourceSessions, into) then Fail(BadRequest)
    else if !ActiveAt(db.sessions, into, destination) then Fail(Conflict)
    else
      var merged := MergeSources(db, sourceTables, sourceSessions);
      if |merged| != |sourceTables| then Fail(Conflict)
      else if AnyPaidOrInvoiced(db.items, into) || (exists s :: s in merged && AnyPaidOrInvoiced(db.items, s)) then Fail(BadRequest)
      else
        Ok(db.(items := MapItems(db.items, MoveOpen(merged, into)),
               sessions := seq(|db.sessions|, s requires 0 <= s < |db.sessions| =>
                                                if s in merged then db.sessions[s].(status := Completed) else db.sessions[s]),
               tables := seq(|db.tables|, t requires 0 <= t < |db.tables| =>
                                            if t in sourceTables then db.tables[t].(status := Empty) else db.tables[t])))
  }

  datatype Move = Move(item: Id, quantity: nat, expected: nat)

  /** One line of a split against the rows as they were read. */
  function CheckMove(items: seq<Item>, s: Id, m: Move): Option<Error> {
    if m.item >= |items| then Some(NotFound)
    else
      var it := items[m.item];
      if it.session != s then Some(BadRequest)
      else if it.paid || it.invoice.Some? then Some(BadRequest)
      else if it.status == Cancelled then Some(BadRequest)
      else if it.quantity != m.expected then Some(Conflict)
      else if m.quantity > it.quantity || m.quantity == 0 then Some(BadRequest)
      else if m.quantity < it.quantity && it.status != Pending then Some(BadRequest)
      else None
  }

  function CheckMoves(items: seq<Item>, s: Id, moves: seq<Move>): Option<Error> {
    if moves == [] then None
    else
      var before := CheckMoves(items, s, moves[..|moves| - 1]);
      if before.Some? then before else CheckMove(items, s, moves[|moves| - 1])
  }

  /** The part of the line that goes to the new session. */
  function MovedPart(it: Item, quantity: nat, to: Id): Item {
    it.(session := to, quantity := quantity, held := map[], remakeOf := None, remadeAs := None, consumed := 0, wasted := 0,
        ticket := if it.ticket.Some? then Some(quantity) else None)
  }

  function KeptPart(it: Item, quantity: nat): Item
    requires quantity <= it.quantity
  {
    it.(quantity := it.quantity - quantity, ticket := if it.ticket.Some? then Some(it.quantity - quantity) else None)
  }

  function MoveOne(items: seq<Item>, m: Move, to: Id): seq<Item> {
    if m.item >= |items| || m.quantity > items[m.item].quantity then items
    else if m.quantity == items[m.item].quantity then items[m.item := items[m.item].(session := to)]
    else items[m.item := KeptPart(items[m.item], m.quantity)] + [MovedPart(items[m.item], m.quantity, to)]
  }

  function MoveAll(items: seq<Item>, moves: seq<Move>, to: Id): seq<Item> {
    if moves == [] then items else MoveOne(MoveAll(items, moves[..|moves| - 1], to), moves[|moves| - 1], to)
  }

  predicate DistinctItems(moves: seq<Move>) {
    forall i, j :: 0 <= i < j < |moves| ==> moves[i].item != moves[j].item
  }

  function SplitTable(db: Db, s: Id, to: Id, moves: seq<Move>): Outcome {
    if !DistinctItems(moves) then Fail(BadRequest)
    else if !TableExists(db, to) then Fail(NotFound)
    else if db.tables[to].status != Empty then Fail(BadRequest)
    else if s >= |db.sessions| || db.sessions[s].status != Active then Fail(BadRequest)
    else if db.sessions[s].request.Some? then Fail(Conflict)
    else if FindActive(db.sessions, to).Some? then Fail(Conflict)
    else if CheckMoves(db.items, s, moves).Some? then Fail(CheckMoves(db.items, s, moves).value)
    else
      var d := SetTable(db, to, Occupied);
      Ok(d.(sessions := db.sessions + [Session(Some(to), Active, None)], items := MoveAll(db.items, moves, |db.sessions|)))
  }

  predicate Finished(items: seq<Item>, s: Id) {
    forall i :: 0 <= i < |items| && ItemIn(items[i], s) && items[i].status != Cancelled ==> items[i].paid && items[i].status == Served
  }

  function CompleteSession(db: Db, s: Id): Outcome {
    if s >= |db.sessions| then Fail(NotFound)
    else if db.sessions[s].table.None? then Fail(Conflict)
    else if db.sessions[s].status == Completed then Ok(db)
    else if db.sessions[s].status != Active || !Finished(db.items, s) then Fail(Conflict)
    else
      var t := db.sessions[s].table.value;
      if t >= |db.tables| || db.tables[t].status != Occupied then Fail(Conflict)
      else Ok(SetTable(SetSession(db, s, Completed), t, Empty))
  }

  function ClearTable(db: Db, t: Id, expected: Option<Id>): Outcome {
    if !TableExists(db, t) then Fail(NotFound)
    else
      var active := FindActive(db.sessions, t);
      if active != expected then Fail(Conflict)
      else if active.None? then Ok(SetTable(db, t, Empty))
      else if AnyPaidOrInvoiced(db.items, active.value) || AnyProcessed(db.items, active.value) then Fail(BadRequest)
      else
        var r := CallOff(db, active.value);
        if r.Fail? then r else Ok(SetTable(r.db, t, Empty))
  }

  // ----- invoices -----

  predicate Billable(it: Item) { it.status != Cancelled && !it.paid && it.invoice.None? }

  /** Without a list of items an invoice takes every billable item of the session. */
  function BillableIds(items: seq<Item>, s: Id): seq<Id> {
    if items == [] then []
    else
      var n := |items| - 1;
      BillableIds(items[..n], s) + if items[n].session == s && Billable(items[n]) then [n] else []
  }

  function ChosenIds(db: Db, s: Id, chosen: Option<seq<Id>>): seq<Id> {
    if chosen.Some? then chosen.value else BillableIds(db.items, s)
  }

  predicate Distinct(ids: seq<Id>) { forall i, j :: 0 <= i < j < |ids| ==> ids[i] != ids[j] }

  predicate AllIn(items: seq<Item>, s: Id, ids: seq<Id>) {
    forall i :: 0 <= i < |ids| ==> ids[i] < |items| && items[ids[i]].session == s
  }

  predicate AllBillable(items: seq<Item>, ids: seq<Id>) {
    forall i :: 0 <= i < |ids| ==> ids[i] < |items| && Billable(items[ids[i]])
  }

  function SubTotal(items: seq<Item>, ids: seq<Id>): int
    requires forall i :: 0 <= i < |ids| ==> ids[i] < |items|
  {
    if ids == [] then 0 else SubTotal(items, ids[..|ids| - 1]) + Amount(items[ids[|ids| - 1]])
  }

  /** Rounds half up to whole hundredths; the rate is in hundredths of a percent. */
  function Tax(taxable: nat, rate: nat): nat { (taxable * rate + 5_000) / 10_000 }

  function Taxable(subTotal: int, discount: int): nat { if subTotal - discount > 0 then subTotal - discount else 0 }

  function Bill(s: Id, subTotal: int, discount: nat, rate: nat, paid: bool): Invoice {
    var taxable := Taxable(subTotal, discount);
    Invoice(s, subTotal, discount, Tax(taxable, rate), taxable + Tax(taxable, rate), if paid then Paid else Unpaid)
  }

  function LinkOne(items: seq<Item>, i: Id, v: Id, paid: bool): seq<Item>
    requires i < |items|
  {
    items[i := items[i].(invoice := Some(v), paid := items[i].paid || paid)]
  }

  function LinkAll(items: seq<Item>, ids: seq<Id>, v: Id, paid: bool): (r: seq<Item>)
    requires forall i :: 0 <= i < |ids| ==> ids[i] < |items|
    ensures |r| == |items|
  {
    if ids == [] then items else LinkOne(LinkAll(items, ids[..|ids| - 1], v, paid), ids[|ids| - 1], v, paid)
  }

  function OnInvoice(v: Id): Item -> bool { (it: Item) => it.invoice == Some(v) }
  function InSession(s: Id): Item -> bool { (it: Item) => it.session == s }

  /** `closeSessionIfFullyPaid`: never a session at a table. */
  function CloseIfPaid(db: Db, s: Id): Db
    requires s < |db.sessions|
  {
    if db.sessions[s].table.Some? || db.sessions[s].status != Active then db
    else if exists i :: 0 <= i < |db.items| && ItemIn(db.items[i], s) && db.items[i].status != Cancelled && !db.items[i].paid then db
    else SetSession(db, s, Completed)
  }

  function CreateInvoice(db: Db, s: Id, chosen: Option<seq<Id>>, discount: nat, rate: nat, paid: bool, closing: bool, onlinePickup: bool): Outcome {
    if s >= |db.sessions| then Fail(NotFound)
    else if db.sessions[s].status != Active then Fail(BadRequest)
    else if !onlinePickup && db.sessions[s].request.Some? then Fail(Conflict)
    else
      var ids := ChosenIds(db, s, chosen);
      if !Distinct(ids) || !AllIn(db.items, s, ids) || ids == [] then Fail(BadRequest)
      else if !AllBillable(db.items, ids) then Fail(BadRequest)
      else
        var v := |db.invoices|;
        var d := db.(invoices := db.invoices + [Bill(s, SubTotal(db.items, ids), discount, rate, paid)],
                     items := LinkAll(db.items, ids, v, paid));
        var r := ReservePending(d, OnInvoice(v));
        if r.Fail? then r else Ok(if paid && closing then CloseIfPaid(r.db, s) else r.db)
  }

  function PayLine(v: Id): Item -> Item {
    (it: Item) => if it.invoice == Some(v) && !it.paid then it.(paid := true) else it
  }

  function MarkPaid(db: Db, v: Id): Db
    requires v < |db.invoices|
  {
    db.(invoices := db.invoices[v := db.invoices[v].(status := Paid)], items := MapItems(db.items, PayLine(v)))
  }

  /** `updatePayment` at the desk. */
  function PayInvoice(db: Db, v: Id, closing: bool): Outcome {
    if v >= |db.invoices| || db.invoices[v].session >= |db.sessions| then Fail(NotFound)
    else if db.invoices[v].status != Unpaid then Fail(BadRequest)
    else if db.sessions[db.invoices[v].session].request.Some? then Fail(Conflict)
    else
      var r := ReservePending(MarkPaid(db, v), OnInvoice(v));
      if r.Fail? then r else Ok(if closing then CloseIfPaid(r.db, db.invoices[v].session) else r.db)
  }

  /** `completeOnlinePayment`: stock was reserved when the payment attempt was made. */
  function PayOnline(db: Db, v: Id, closing: bool): Outcome {
    if v >= |db.invoices| || db.invoices[v].session >= |db.sessions| then Fail(NotFound)
    else if db.invoices[v].status != Unpaid then Fail(BadRequest)
    else
      var d := MarkPaid(db, v);
      Ok(if closing then CloseIfPaid(d, db.invoices[v].session) else d)
  }

  function ReserveInvoice(db: Db, v: Id): Outcome {
    if v >= |db.invoices| then Fail(NotFound)
    else if db.invoices[v].status != Unpaid then Fail(Conflict)
    else ReservePending(db, OnInvoice(v))
  }

  function PendingOn(v: Id): Item -> bool { (it: Item) => it.invoice == Some(v) && it.status == Pending }

  function Unlink(v: Id): Item -> Item {
    (it: Item) => if it.invoice == Some(v) && !it.paid then it.(invoice := None) else it
  }

  function VoidInvoice(db: Db, v: Id): Outcome {
    if v >= |db.invoices| || db.invoices[v].session >= |db.sessions| then Fail(NotFound)
    else if db.invoices[v].status != Unpaid then Fail(BadRequest)
    else
      var r := if db.sessions[db.invoices[v].session].request.None? then Release(db, PendingOn(v)) else Ok(db);
      if r.Fail? then r
      else
        Ok(r.db.(invoices := db.invoices[v := db.invoices[v].(status := Voided)], items := MapItems(r.db.items, Unlink(v))))
  }

  /** Cash and provider refunds move a paid invoice on. */
  function RefundInvoice(db: Db, v: Id, all: bool): Outcome {
    if v >= |db.invoices| then Fail(NotFound)
    else if db.invoices[v].status != Paid && db.invoices[v].status != PartiallyRefunded then Fail(Conflict)
    else Ok(db.(invoices := db.invoices[v := db.invoices[v].(status := if all then Refunded else PartiallyRefunded)]))
  }

  function Replacement(it: Item, i: Id): Item {
    it.(price := 0, paid := true, invoice := None, status := Pending, held := map[], ticket := Some(it.quantity),
        remakeOf := Some(i), remadeAs := None, consumed := 0, wasted := 0)
  }

  /** The menu item must still have an active kitchen station. */
  function RemakeItem(db: Db, i: Id, routable: bool): Outcome {
    if i >= |db.items| || db.items[i].session >= |db.sessions| then Fail(NotFound)
    else
      var it := db.items[i];
      var s := db.sessions[it.session];
      if !it.paid || it.status != Served || it.invoice.None? || it.invoice.value >= |db.invoices|
         || db.invoices[it.invoice.value].status != Paid || s.status == SessionCancelled
         || (s.table.Some? && s.status != Active) then Fail(Conflict)
      else if it.remadeAs.Some? || it.remakeOf.Some? then Fail(Conflict)
      else if !routable then Fail(Conflict)
      else
        Ok(db.(items := db.items[i := it.(remadeAs := Some(|db.items|), wasted := it.wasted + 1)] + [Replacement(it, i)]))
  }

  // ----- online orders -----

  function QuotedTotal(quotes: seq<Quote>): int {
    if quotes == [] then 0
    else QuotedTotal(quotes[..|quotes| - 1]) + Times(quotes[|quotes| - 1].price, quotes[|quotes| - 1].quantity)
  }

  function SubmitRequest(db: Db, quotes: seq<Quote>, pickupAt: Option<int>, expiresAt: int): Outcome {
    if exists i :: 0 <= i < |quotes| && quotes[i].quantity == 0 then Fail(BadRequest)
    else if quotes == [] then Fail(BadRequest)
    else Ok(db.(requests := db.requests + [OnlineRequest(quotes, QuotedTotal(quotes), pickupAt, expiresAt, RequestPending, None)]))
  }

  function BookedAt(pickupAt: int): OnlineRequest -> int {
    (r: OnlineRequest) => if r.status == Accepted && r.pickupAt == Some(pickupAt) then 1 else 0
  }

  /** The menu as it is now, resolved for the quoted lines, must quote the same prices and the same options. */
  predicate QuotesHold(quotes: seq<Quote>, lines: seq<Line>) {
    |quotes| == |lines| && forall i :: 0 <= i < |lines| ==>
      && lines[i].price == quotes[i].price && lines[i].selected == quotes[i].selected
      && lines[i].quantity == quotes[i].quantity && lines[i].menuItem == quotes[i].menuItem
  }

  function AcceptRequest(db: Db, r: Id, lines: seq<Line>, now: int, capacity: nat): Outcome {
    if r >= |db.requests| then Fail(NotFound)
    else
      var q := db.requests[r];
      if q.status != RequestPending || q.expiresAt <= now then Fail(Conflict)
      else if q.pickupAt.Some? && q.pickupAt.value <= now then Fail(Conflict)
      else if q.pickupAt.Some? && Total(db.requests, BookedAt(q.pickupAt.value)) >= capacity then Fail(Conflict)
      else if !QuotesHold(q.quotes, lines) || (exists i :: 0 <= i < |lines| && !LineOk(lines[i], |db.stock|)) then Fail(Conflict)
      else
        var s := |db.sessions|;
        var d := AddLines(db.(sessions := db.sessions + [Session(None, Active, Some(r))]), s, lines);
        var h := ReservePending(d, InSession(s));
        if h.Fail? then h
        else Ok(h.db.(requests := db.requests[r := q.(status := Accepted, session := Some(s))]))
  }

  function RejectRequest(db: Db, r: Id, now: int): Outcome {
    if r >= |db.requests| || db.requests[r].status != RequestPending || db.requests[r].expiresAt <= now then Fail(Conflict)
    else Ok(db.(requests := db.requests[r := db.requests[r].(status := Rejected)]))
  }

  predicate Collectable(it: Item) { it.status == Ready && !it.paid && it.invoice.None? }

  function ServeOn(v: Id): Item -> Item {
    (it: Item) => if it.invoice == Some(v) && it.status == Ready then it.(status := Served) else it
  }

  /** Why a collection is refused: the order cannot be collected now, or its total is not the quoted one. */
  datatype Collection = Collected(outcome: Outcome) | NotReady | TotalChanged

  function CollectRequest(db: Db, r: Id): Collection {
    if r >= |db.requests| || db.requests[r].status != Accepted || db.requests[r].session.None? then NotReady
    else
      var s := db.requests[r].session.value;
      if s >= |db.sessions| || db.sessions[s].table.Some? || db.sessions[s].status != Active then NotReady
      else if (forall i :: 0 <= i < |db.items| ==> !ItemIn(db.items[i], s))
              || (exists i :: 0 <= i < |db.items| && ItemIn(db.items[i], s) && !Collectable(db.items[i])) then NotReady
      else if Total(db.items, LineIn(s)) != db.requests[r].quotedSubtotal then TotalChanged
      else
        var o := CreateInvoice(db, s, None, 0, 0, true, true, true);
        Collected(if o.Fail? then o else Ok(o.db.(items := MapItems(o.db.items, ServeOn(|db.invoices|)))))
  }

  function WasteStarted(s: Id): Item -> Item {
    (it: Item) => if it.session == s && (it.status == Cooking || it.status == Ready) then it.(wasted := it.wasted + 1) else it
  }

  /** Staff cancellation and no-show; a customer cancels the same way while every item is pending. */
  function CancelRequest(db: Db, r: Id): Outcome {
    if r >= |db.requests| || db.requests[r].status != Accepted || db.requests[r].session.None? then Fail(Conflict)
    else
      var s := db.requests[r].session.value;
      if s >= |db.sessions| || db.sessions[s].table.Some? || db.sessions[s].status != Active
         || AnyPaidOrInvoiced(db.items, s)
         || (exists i :: 0 <= i < |db.items| && ItemIn(db.items[i], s) && db.items[i].status == Served) then Fail(Conflict)
      else
        var o := CallOff(db.(items := MapItems(db.items, WasteStarted(s))), s);
        if o.Fail? then o else Ok(o.db.(requests := db.requests[r := db.requests[r].(status := RequestCancelled)]))
  }

  /** Goods received, or taken out by hand within what is free. */
  function AdjustStock(db: Db, k: Id, delta: int): Outcome {
    if k >= |db.stock| then Fail(NotFound)
    else if db.stock[k].stock + delta < db.stock[k].reserved then Fail(Insufficient)
    else Ok(db.(stock := db.stock[k := Stock(db.stock[k].stock + delta, db.stock[k].reserved, db.stock[k].received + delta)]))
  }

  // ----- runs -----

  datatype Event =
    | TableAdded
    | TableDeleted(table: Id)
    | IngredientAdded
    | StockAdjusted(ingredient: Id, delta: int)
    | SessionOpened(at: Option<Id>)
    | ItemsAdded(session: Id, lines: seq<Line>)
    | StatusChanged(item: Id, next: ServeStatus, handoffOnly: bool, pickup: Pickup, due: bool)
    | ItemCancelled(item: Id, hasReason: bool)
    | SessionCalledOff(session: Id)
    | TableTransferred(session: Id, from: Id, to: Id)
    | TablesMerged(sourceTables: set<Id>, destination: Id, sourceSessions: set<Id>, into: Id)
    | TableSplit(session: Id, to: Id, moves: seq<Move>)
    | SessionCompleted(session: Id)
    | TableCleared(table: Id, expected: Option<Id>)
    | Invoiced(session: Id, chosen: Option<seq<Id>>, discount: nat, rate: nat, paid: bool, closing: bool)
    | InvoicePaid(invoice: Id, closing: bool)
    | InvoicePaidOnline(invoice: Id, closing: bool)
    | InvoiceReserved(invoice: Id)
    | InvoiceVoided(invoice: Id)
    | InvoiceRefunded(invoice: Id, all: bool)
    | ItemRemade(item: Id, routable: bool)
    | RequestSubmitted(quotes: seq<Quote>, pickupAt: Option<int>, expiresAt: int)
    | RequestAccepted(request: Id, lines: seq<Line>, now: int)
    | RequestRejected(request: Id, now: int)
    | RequestCollected(request: Id)
    | RequestCalledOff(request: Id)

  function Do(db: Db, e: Event, capacity: nat): Outcome {
    match e
    case TableAdded => AddTable(db)
    case TableDeleted(t) => DeleteTable(db, t)
    case IngredientAdded => Ok(db.(stock := db.stock + [Stock(0, 0, 0)]))
    case StockAdjusted(k, delta) => AdjustStock(db, k, delta)
    case SessionOpened(at) => OpenSession(db, at, None)
    case ItemsAdded(s, lines) => AddItems(db, s, lines)
    case StatusChanged(i, next, handoffOnly, pickup, due) => ChangeStatus(db, i, next, handoffOnly, pickup, due)
    case ItemCancelled(i, hasReason) => CancelItem(db, i, hasReason)
    case SessionCalledOff(s) => CancelSession(db, s)
    case TableTransferred(s, from, to) => TransferTable(db, s, from, to)
    case TablesMerged(sourceTables, destination, sourceSessions, into) => MergeTables(db, sourceTables, destination, sourceSessions, into)
    case TableSplit(s, to, moves) => SplitTable(db, s, to, moves)
    case SessionCompleted(s) => CompleteSession(db, s)
    case TableCleared(t, expected) => ClearTable(db, t, expected)
    case Invoiced(s, chosen, discount, rate, paid, closing) => CreateInvoice(db, s, chosen, discount, rate, paid, closing, false)
    case InvoicePaid(v, closing) => PayInvoice(db, v, closing)
    case InvoicePaidOnline(v, closing) => PayOnline(db, v, closing)
    case InvoiceReserved(v) => ReserveInvoice(db, v)
    case InvoiceVoided(v) => VoidInvoice(db, v)
    case InvoiceRefunded(v, all) => RefundInvoice(db, v, all)
    case ItemRemade(i, routable) => RemakeItem(db, i, routable)
    case RequestSubmitted(quotes, pickupAt, expiresAt) => SubmitRequest(db, quotes, pickupAt, expiresAt)
    case RequestAccepted(r, lines, now) => AcceptRequest(db, r, lines, now, capacity)
    case RequestRejected(r, now) => RejectRequest(db, r, now)
    case RequestCollected(r) =>
      var c := CollectRequest(db, r);
      if c.Collected? then c.outcome else Fail(Conflict)
    case RequestCalledOff(r) => CancelRequest(db, r)
  }

  function Step(db: Db, e: Event, capacity: nat): Db {
    var o := Do(db, e, capacity);
    if o.Ok? then o.db else db
  }

  function Run(db: Db, events: seq<Event>, capacity: nat): Db {
    if events == [] then db else Step(Run(db, events[..|events| - 1], capacity), events[|events| - 1], capacity)
  }
}

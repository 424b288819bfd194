/** The invariant of the floor, the kitchen, the invoices and the online orders, and that every
    transaction keeps it. */
module OrderSteps {
  import opened Sums
  import opened OrderTables
  import opened OrderStock
  import opened OrderItems
  import opened OrderFloor

  /** A request and the session it was accepted into name each other and are cancelled together. */
  ghost predicate RequestOk(r: Id, q: OnlineRequest, sessions: seq<Session>) {
    && q.quotedSubtotal == QuotedTotal(q.quotes)
    && (q.status == Accepted || q.status == RequestCancelled <==> q.session.Some?)
    && (q.session.Some? ==>
         var s := q.session.value;
         && s < |sessions| && sessions[s].request == Some(r)
         && (q.status == RequestCancelled <==> sessions[s].status == SessionCancelled))
  }

  /** An online session sits at no table, and its items are worth what was quoted. */
  ghost predicate OnlineSessionOk(s: Id, session: Session, requests: seq<OnlineRequest>, items: seq<Item>) {
    session.request.Some? ==>
      && session.table.None? && session.request.value < |requests| && requests[session.request.value].session == Some(s)
      && Total(items, LineIn(s)) == requests[session.request.value].quotedSubtotal
  }

  ghost predicate RequestsOk(requests: seq<OnlineRequest>, sessions: seq<Session>) {
    forall r :: 0 <= r < |requests| ==> RequestOk(r, requests[r], sessions)
  }

  ghost predicate OnlineSessionsOk(requests: seq<OnlineRequest>, sessions: seq<Session>, items: seq<Item>) {
    forall s :: 0 <= s < |sessions| ==> OnlineSessionOk(s, sessions[s], requests, items)
  }

  ghost predicate WithinCapacity(requests: seq<OnlineRequest>, capacity: nat) {
    forall p: int :: Total(requests, BookedAt(p)) <= capacity
  }

  ghost predicate Inv(db: Db, capacity: nat) {
    && FloorOk(db.tables, db.sessions) && StockOk(db.stock, db.items)
    && ItemsOk(db.items, db.sessions, db.invoices) && LinksOk(db.items) && InvoicesOk(db.invoices, db.items, db.sessions)
    && RequestsOk(db.requests, db.sessions) && OnlineSessionsOk(db.requests, db.sessions, db.items)
    && WithinCapacity(db.requests, capacity)
  }

  ghost predicate Keeps(o: Outcome, capacity: nat) {
    match o
    case Fail(_) => true
    case Ok(d) => Inv(d, capacity)
  }

  // ----- frames -----

  predicate SameWorth(it: Item, other: Item) {
    it.session == other.session && it.price == other.price && it.quantity == other.quantity
  }

  /** What the sums over items, other than stock, read of an item. */
  predicate SameBooks(it: Item, other: Item) { SameWorth(it, other) && SameLine(it, other) && SameLinks(it, other) }

  lemma BooksStay(db: Db, after: seq<Item>, capacity: nat)
    requires Inv(db, capacity) && |after| == |db.items| && forall i :: 0 <= i < |after| ==> SameBooks(db.items[i], after[i])
    ensures LinksOk(after) && InvoicesOk(db.invoices, after, db.sessions) && OnlineSessionsOk(db.requests, db.sessions, after)
  {
    hide FloorOk, StockOk, ItemsOk, RequestsOk, WithinCapacity;
    LinksStay(db.items, after);
    LinesStay(db.invoices, db.items, after, db.sessions);
    forall s | 0 <= s < |db.sessions| ensures OnlineSessionOk(s, db.sessions[s], db.requests, after) {
      assert OnlineSessionOk(s, db.sessions[s], db.requests, db.items);
      TotalsAgree(db.items, after, LineIn(s), LineIn(s));
    }
  }

  /** A step that only rewrites items, leaving their books alone. */
  lemma ItemsStepKeeps(db: Db, d: Db, capacity: nat)
    requires Inv(db, capacity) && d == db.(items := d.items, stock := d.stock)
    requires |d.items| == |db.items| && forall i :: 0 <= i < |d.items| ==> SameBooks(db.items[i], d.items[i])
    requires StockOk(d.stock, d.items) && ItemsOk(d.items, db.sessions, db.invoices)
    ensures Inv(d, capacity)
  {
    BooksStay(db, d.items, capacity);
    hide FloorOk, StockOk, ItemsOk, LinksOk, InvoicesOk, RequestsOk, OnlineSessionsOk, WithinCapacity;
  }

  // ----- tables and sessions -----

  lemma TablesKeep(db: Db, t: Id, capacity: nat)
    requires Inv(db, capacity)
    ensures Keeps(AddTable(db), capacity) && Keeps(DeleteTable(db, t), capacity)
  {
    hide StockOk, ItemsOk, LinksOk, InvoicesOk, RequestsOk, OnlineSessionsOk, WithinCapacity, FloorOk;
    AddTableKeeps(db);
    if DeleteTable(db, t).Ok? {
      DeleteTableKeeps(db, t);
    }
  }

  lemma NewSessionOnline(db: Db, s: Session, capacity: nat)
    requires Inv(db, capacity) && s.request.None?
    ensures RequestsOk(db.requests, db.sessions + [s]) && OnlineSessionsOk(db.requests, db.sessions + [s], db.items)
  {
    hide FloorOk, StockOk, ItemsOk, LinksOk, InvoicesOk, WithinCapacity;
    forall r | 0 <= r < |db.requests| ensures RequestOk(r, db.requests[r], db.sessions + [s]) {
      assert RequestOk(r, db.requests[r], db.sessions);
    }
    forall k | 0 <= k < |db.sessions| ensures OnlineSessionOk(k, (db.sessions + [s])[k], db.requests, db.items) {
      assert OnlineSessionOk(k, db.sessions[k], db.requests, db.items);
    }
  }

  lemma OpenSessionKeeps(db: Db, at: Option<Id>, capacity: nat)
    requires Inv(db, capacity)
    ensures Keeps(OpenSession(db, at, None), capacity)
  {
    var s := Session(at, Active, None);
    NewSessionStays(db.items, db.invoices, db.sessions, s);
    NewSessionOnline(db, s, capacity);
    if at.None? {
      assert forall k, t :: ActiveAt(db.sessions + [s], k, t) <==> ActiveAt(db.sessions, k, t);
      SamePlacesKeep(db.tables, db.sessions, db.sessions + [s]);
    } else if OpenSession(db, at, None).Ok? {
      SeatKeeps(db.tables, db.sessions, at.value, s);
    }
    hide FloorOk, StockOk, ItemsOk, LinksOk, InvoicesOk, RequestsOk, OnlineSessionsOk, WithinCapacity;
  }

  // ----- items -----

  lemma NewItemsAreOk(db: Db, s: Id, lines: seq<Line>)
    requires s < |db.sessions| && db.sessions[s].status == Active
    requires ItemsOk(db.items, db.sessions, db.invoices)
    requires forall i :: 0 <= i < |lines| ==> LineOk(lines[i], |db.stock|)
    ensures ItemsOk(AddLines(db, s, lines).items, db.sessions, db.invoices)
    ensures StockOk(db.stock, db.items) ==> StockOk(db.stock, AddLines(db, s, lines).items)
  {
    var more := NewItems(s, lines);
    forall i | 0 <= i < |lines| ensures ItemOk(more[i], db.sessions, db.invoices) && RecipeOk(more[i], |db.stock|) {
      assert LineOk(lines[i], |db.stock|);
    }
    if StockOk(db.stock, db.items) {
      NewItemsKeep(db.stock, db.items, more);
    }
  }

  /** Lines added to a session leave the worth of the other sessions alone. */
  lemma NewItemsOnline(db: Db, s: Id, more: seq<Item>, capacity: nat)
    requires Inv(db, capacity) && s < |db.sessions| && db.sessions[s].request.None?
    requires forall i :: 0 <= i < |more| ==> more[i].session == s
    ensures OnlineSessionsOk(db.requests, db.sessions, db.items + more)
  {
    hide FloorOk, StockOk, ItemsOk, LinksOk, InvoicesOk, WithinCapacity, RequestsOk;
    forall k | 0 <= k < |db.sessions| ensures OnlineSessionOk(k, db.sessions[k], db.requests, db.items + more) {
      assert OnlineSessionOk(k, db.sessions[k], db.requests, db.items);
      if k != s {
        TotalConcat(db.items, more, LineIn(k));
        TotalZero(more, LineIn(k));
      }
    }
  }

  lemma AddItemsKeeps(db: Db, s: Id, lines: seq<Line>, capacity: nat)
    requires Inv(db, capacity)
    ensures Keeps(AddItems(db, s, lines), capacity)
  {
    if AddItems(db, s, lines).Ok? {
      var more := NewItems(s, lines);
      NewItemsAreOk(db, s, lines);
      NewItemsOnline(db, s, more, capacity);
      NewLinesStay(db.invoices, db.items, more, db.sessions);
      hide FloorOk, StockOk, ItemsOk, LinksOk, InvoicesOk, RequestsOk, OnlineSessionsOk, WithinCapacity;
    }
  }

  /** A step that only rewrites one item, leaving its books alone. */
  lemma OneItemStepKeeps(db: Db, d: Db, i: Id, capacity: nat)
    requires Inv(db, capacity) && i < |db.items| == |d.items| && d == db.(items := db.items[i := d.items[i]], stock := d.stock)
    requires SameBooks(db.items[i], d.items[i]) && ItemOk(d.items[i], db.sessions, db.invoices) && StockOk(d.stock, d.items)
    ensures Inv(d, capacity)
  {
    assert ItemsOk(d.items, db.sessions, db.invoices);
    hide StockOk, ItemOk;
    ItemsStepKeeps(db, d, capacity);
  }

  lemma StatusStockKeeps(db: Db, i: Id, status: ServeStatus, wasted: nat)
    requires StockOk(db.stock, db.items) && i < |db.items|
    ensures StockOk(db.stock, db.items[i := db.items[i].(status := status, wasted := wasted)])
  {
    SameStockKeeps(db.stock, db.items, db.items[i := db.items[i].(status := status, wasted := wasted)]);
  }

  lemma AdvancedItemIsOk(it: Item, next: ServeStatus, sessions: seq<Session>, invoices: seq<Invoice>)
    requires ItemOk(it, sessions, invoices) && ServeTransition(it.status, next)
    requires sessions[it.session].status != SessionCancelled
    ensures next != Cooking ==> ItemOk(it.(status := next), sessions, invoices)
    ensures next == Cooking ==> ItemOk(it.(status := next, held := map[], consumed := it.consumed + 1), sessions, invoices)
  {
  }

  lemma ChangeStatusKeeps(db: Db, i: Id, next: ServeStatus, handoffOnly: bool, pickup: Pickup, due: bool, capacity: nat)
    requires Inv(db, capacity)
    ensures Keeps(ChangeStatus(db, i, next, handoffOnly, pickup, due), capacity)
  {
    var o := ChangeStatus(db, i, next, handoffOnly, pickup, due);
    if o.Ok? && o.db != db {
      assert ItemOk(db.items[i], db.sessions, db.invoices);
      AdvancedItemIsOk(db.items[i], next, db.sessions, db.invoices);
      StatusStockKeeps(db, i, next, db.items[i].wasted);
      if next == Cooking {
        ConsumeKeeps(db.(items := db.items[i := db.items[i].(status := next)]), i);
      }
      hide StockOk, ItemsOk, LinksOk, InvoicesOk, RequestsOk, OnlineSessionsOk, WithinCapacity, FloorOk, ItemOk;
      OneItemStepKeeps(db, o.db, i, capacity);
    }
  }

  lemma CancelledItemIsOk(it: Item, sessions: seq<Session>, invoices: seq<Invoice>)
    requires ItemOk(it, sessions, invoices) && it.invoice.None? && it.status != Cancelled
    requires it.paid ==> it.status != Served
    requires sessions[it.session].request.Some? && sessions[it.session].status == Active ==> it.remakeOf.Some?
    ensures ItemOk(it.(status := Cancelled, wasted := it.wasted + if Prepared(it.status) then 1 else 0, held := map[]), sessions, invoices)
  {
  }

  lemma CancelItemKeeps(db: Db, i: Id, hasReason: bool, capacity: nat)
    requires Inv(db, capacity)
    ensures Keeps(CancelItem(db, i, hasReason), capacity)
  {
    var o := CancelItem(db, i, hasReason);
    if o.Ok? {
      var it := db.items[i];
      assert ItemOk(it, db.sessions, db.invoices);
      CancelledItemIsOk(it, db.sessions, db.invoices);
      var wasted := it.wasted + if Prepared(it.status) then 1 else 0;
      StatusStockKeeps(db, i, Cancelled, wasted);
      ReleaseItemKeeps(db.(items := db.items[i := it.(status := Cancelled, wasted := wasted)]), i);
      hide StockOk, ItemsOk, LinksOk, InvoicesOk, RequestsOk, OnlineSessionsOk, WithinCapacity, FloorOk, ItemOk;
      OneItemStepKeeps(db, o.db, i, capacity);
    }
  }

  // ----- calling sessions off -----

  /** The release of reservations touches nothing but reservations. */
  lemma ReleaseEffect(db: Db, sel: Item -> bool)
    requires StockOk(db.stock, db.items)
    ensures Release(db, sel).Ok?
    ensures var d := Release(db, sel).db;
            && d == db.(items := d.items, stock := d.stock) && StockOk(d.stock, d.items)
            && |d.items| == |db.items|
            && forall i :: 0 <= i < |d.items| ==> d.items[i] == (if sel(db.items[i]) then db.items[i].(held := map[]) else db.items[i])
  {
    ReleaseKeeps(db, sel);
    hide StockOk;
  }

  lemma CallOffStock(db: Db, s: Id)
    requires StockOk(db.stock, db.items) && s < |db.sessions|
    ensures CallOff(db, s).Ok?
    ensures var d := CallOff(db, s).db; StockOk(d.stock, d.items)
  {
    ReleaseEffect(db, LiveIn(s));
    var r := Release(db, LiveIn(s)).db;
    SameStockKeeps(r.stock, r.items, MapItems(r.items, CancelOpen(s)));
  }

  /** Every item of the session that is neither paid nor invoiced is cancelled; nothing else changes. */
  lemma CallOffEffect(db: Db, s: Id, i: Id)
    requires s < |db.sessions| && CallOff(db, s).Ok? && i < |db.items|
    ensures var d := CallOff(db, s).db;
            && d == db.(items := d.items, stock := d.stock, sessions := db.sessions[s := db.sessions[s].(status := SessionCancelled)])
            && |d.items| == |db.items| && SameBooks(db.items[i], d.items[i])
            && d.items[i] == if db.items[i].session != s then db.items[i]
                             else if db.items[i].paid || db.items[i].invoice.Some? then LetGo(LiveIn(s))(db.items[i])
                             else LetGo(LiveIn(s))(db.items[i]).(status := Cancelled)
  {
  }

  /** An open item all of whose consumption has been written off. */
  ghost predicate ReadyToCancel(it: Item, sessions: seq<Session>, invoices: seq<Invoice>) {
    BillOk(it, invoices) && PlaceOk(it, sessions) && TicketOk(it) && it.wasted == it.consumed <= 1 && !it.paid && it.invoice.None?
  }

  lemma CallOffItems(db: Db, s: Id)
    requires s < |db.sessions| && CallOff(db, s).Ok? && db.sessions[s].status == Active
    requires forall i :: 0 <= i < |db.items| ==>
      if db.items[i].session == s then ReadyToCancel(db.items[i], db.sessions, db.invoices) else ItemOk(db.items[i], db.sessions, db.invoices)
    ensures ItemsOk(CallOff(db, s).db.items, CallOff(db, s).db.sessions, db.invoices)
  {
    var d := CallOff(db, s).db;
    forall i | 0 <= i < |db.items| ensures |d.items| == |db.items| && ItemOk(d.items[i], d.sessions, db.invoices) {
      CallOffEffect(db, s, i);
      hide CallOff;
    }
  }

  /** The status of a session that no request owns concerns items only. */
  lemma SessionStatusStays(db: Db, s: Id, status: SessionStatus, capacity: nat)
    requires Inv(db, capacity) && s < |db.sessions| && db.sessions[s].request.None?
    ensures var after := db.sessions[s := db.sessions[s].(status := status)];
            && InvoicesOk(db.invoices, db.items, after) && RequestsOk(db.requests, after) && OnlineSessionsOk(db.requests, after, db.items)
  {
    hide FloorOk, StockOk, ItemsOk, LinksOk, WithinCapacity;
    var after := db.sessions[s := db.sessions[s].(status := status)];
    forall v | 0 <= v < |db.invoices| ensures InvoiceOk(v, db.invoices[v], db.items, after) {
      assert InvoiceOk(v, db.invoices[v], db.items, db.sessions);
    }
    forall r | 0 <= r < |db.requests| ensures RequestOk(r, db.requests[r], after) {
      assert RequestOk(r, db.requests[r], db.sessions);
    }
    forall k | 0 <= k < |after| ensures OnlineSessionOk(k, after[k], db.requests, db.items) {
      assert OnlineSessionOk(k, db.sessions[k], db.requests, db.items);
    }
  }

  /** What remains of the invariant when a session without a request is called off. */
  lemma CallOffBooks(db: Db, s: Id, capacity: nat)
    requires Inv(db, capacity) && s < |db.sessions| && db.sessions[s].request.None? && CallOff(db, s).Ok?
    ensures var d := CallOff(db, s).db;
            && d == db.(items := d.items, stock := d.stock, sessions := db.sessions[s := db.sessions[s].(status := SessionCancelled)])
            && LinksOk(d.items) && InvoicesOk(d.invoices, d.items, d.sessions)
            && RequestsOk(d.requests, d.sessions) && OnlineSessionsOk(d.requests, d.sessions, d.items)
  {
    var d := CallOff(db, s).db;
    forall i | 0 <= i < |db.items| ensures |d.items| == |db.items| && SameBooks(db.items[i], d.items[i]) {
      CallOffEffect(db, s, i);
    }
    assert |d.items| == |db.items|;
    BooksStay(db, d.items, capacity);
    hide FloorOk, StockOk, ItemsOk, LinksOk, WithinCapacity;
    var b := db.(items := d.items);
    forall v | 0 <= v < |d.invoices| ensures InvoiceOk(v, d.invoices[v], d.items, d.sessions) {
      assert InvoiceOk(v, d.invoices[v], d.items, db.sessions);
    }
    forall r | 0 <= r < |d.requests| ensures RequestOk(r, d.requests[r], d.sessions) {
      assert RequestOk(r, db.requests[r], db.sessions);
    }
    forall k | 0 <= k < |d.sessions| ensures OnlineSessionOk(k, d.sessions[k], d.requests, d.items) {
      assert OnlineSessionOk(k, db.sessions[k], db.requests, d.items);
    }
  }

  lemma OpenItemsReady(db: Db, s: Id)
    requires ItemsOk(db.items, db.sessions, db.invoices) && !AnyPaidOrInvoiced(db.items, s) && !AnyProcessed(db.items, s)
    ensures forall i :: 0 <= i < |db.items| ==>
      if db.items[i].session == s then ReadyToCancel(db.items[i], db.sessions, db.invoices) else ItemOk(db.items[i], db.sessions, db.invoices)
  {
    forall i | 0 <= i < |db.items|
      ensures if db.items[i].session == s then ReadyToCancel(db.items[i], db.sessions, db.invoices) else ItemOk(db.items[i], db.sessions, db.invoices)
    {
      assert ItemOk(db.items[i], db.sessions, db.invoices);
      if db.items[i].session == s {
        assert ItemIn(db.items[i], s);
      }
    }
  }

  /** A session with only open items is called off, and its table, if it has one, is emptied. */
  lemma CallOffKeeps(db: Db, s: Id, capacity: nat)
    requires Inv(db, capacity) && s < |db.sessions| && db.sessions[s].status == Active && db.sessions[s].request.None?
    requires !AnyPaidOrInvoiced(db.items, s) && !AnyProcessed(db.items, s)
    ensures CallOff(db, s).Ok?
    ensures var d := CallOff(db, s).db; var t := db.sessions[s].table;
            Inv(if t.None? || t.value >= |d.tables| then d else SetTable(d, t.value, Empty), capacity)
  {
    OpenItemsReady(db, s);
    CallOffStock(db, s);
    CallOffItems(db, s);
    CallOffBooks(db, s, capacity);
    var d := CallOff(db, s).db;
    if db.sessions[s].table.None? {
      assert SamePlaces(db.sessions, d.sessions);
      SamePlacesKeep(db.tables, db.sessions, d.sessions);
    } else {
      assert ActiveAt(db.sessions, s, db.sessions[s].table.value);
      LeaveKeeps(db.tables, db.sessions, s, db.sessions[s].table.value, d.sessions[s]);
    }
    hide FloorOk, StockOk, ItemsOk, LinksOk, InvoicesOk, RequestsOk, OnlineSessionsOk, WithinCapacity;
  }

  lemma CancelSessionKeeps(db: Db, s: Id, capacity: nat)
    requires Inv(db, capacity)
    ensures Keeps(CancelSession(db, s), capacity)
  {
    if CancelSession(db, s).Ok? {
      CallOffKeeps(db, s, capacity);
      hide Inv;
    }
  }

  lemma ClearTableKeeps(db: Db, t: Id, expected: Option<Id>, capacity: nat)
    requires Inv(db, capacity)
    ensures Keeps(ClearTable(db, t, expected), capacity)
  {
    var o := ClearTable(db, t, expected);
    if o.Ok? {
      var active := FindActive(db.sessions, t);
      if active.Some? {
        assert OnlineSessionOk(active.value, db.sessions[active.value], db.requests, db.items);
        CallOffKeeps(db, active.value, capacity);
        hide Inv;
      } else {
        ResetKeeps(db, t);
        hide FloorOk, StockOk, ItemsOk, LinksOk, InvoicesOk, RequestsOk, OnlineSessionsOk, WithinCapacity;
      }
    }
  }

  // ----- moving sessions and items between tables -----

  /** Sessions may move between tables: only the floor and the online orders look at that. */
  lemma SessionsMove(db: Db, after: seq<Session>, capacity: nat)
    requires Inv(db, capacity) && |after| == |db.sessions|
    requires forall s :: 0 <= s < |after| ==> after[s].status == db.sessions[s].status && after[s].request == db.sessions[s].request
                                              && (after[s].request.Some? ==> after[s].table == db.sessions[s].table)
    ensures ItemsOk(db.items, after, db.invoices) && InvoicesOk(db.invoices, db.items, after)
    ensures RequestsOk(db.requests, after) && OnlineSessionsOk(db.requests, after, db.items)
  {
    hide FloorOk, StockOk, LinksOk, WithinCapacity;
    forall i | 0 <= i < |db.items| ensures ItemOk(db.items[i], after, db.invoices) {
      assert ItemOk(db.items[i], db.sessions, db.invoices);
    }
    forall v | 0 <= v < |db.invoices| ensures InvoiceOk(v, db.invoices[v], db.items, after) {
      assert InvoiceOk(v, db.invoices[v], db.items, db.sessions);
    }
    forall r | 0 <= r < |db.requests| ensures RequestOk(r, db.requests[r], after) {
      assert RequestOk(r, db.requests[r], db.sessions);
    }
    forall s | 0 <= s < |after| ensures OnlineSessionOk(s, after[s], db.requests, db.items) {
      assert OnlineSessionOk(s, db.sessions[s], db.requests, db.items);
    }
  }

  lemma TransferTableKeeps(db: Db, s: Id, from: Id, to: Id, capacity: nat)
    requires Inv(db, capacity)
    ensures Keeps(TransferTable(db, s, from, to), capacity)
  {
    var o := TransferTable(db, s, from, to);
    if o.Ok? {
      assert OnlineSessionOk(s, db.sessions[s], db.requests, db.items);
      TransferKeeps(db, s, from, to);
      SessionsMove(db, o.db.sessions, capacity);
      hide FloorOk, StockOk, ItemsOk, LinksOk, InvoicesOk, RequestsOk, OnlineSessionsOk, WithinCapacity;
    }
  }

  lemma CompleteSessionKeeps(db: Db, s: Id, capacity: nat)
    requires Inv(db, capacity)
    ensures Keeps(CompleteSession(db, s), capacity)
  {
    var o := CompleteSession(db, s);
    if o.Ok? && o.db != db {
      assert OnlineSessionOk(s, db.sessions[s], db.requests, db.items);
      SessionStatusStays(db, s, Completed, capacity);
      LeaveKeeps(db.tables, db.sessions, s, db.sessions[s].table.value, o.db.sessions[s]);
      forall i | 0 <= i < |db.items| ensures ItemOk(db.items[i], o.db.sessions, db.invoices) {
        assert ItemOk(db.items[i], db.sessions, db.invoices) && (db.items[i].session == s ==> ItemIn(db.items[i], s));
      }
      hide FloorOk, StockOk, LinksOk, InvoicesOk, RequestsOk, OnlineSessionsOk, WithinCapacity;
    }
  }

  /** An open item may go to any active session that is not an online order. */
  lemma MovedItemIsOk(it: Item, to: Id, sessions: seq<Session>, invoices: seq<Invoice>)
    requires ItemOk(it, sessions, invoices) && !it.paid && it.invoice.None? && sessions[it.session].request.None?
    requires to < |sessions| && sessions[to].status == Active && sessions[to].request.None?
    ensures ItemOk(it.(session := to), sessions, invoices)
    ensures it.held == map[] && it.remakeOf.None? && it.remadeAs.None?
  {
  }

  lemma MergedItemsAreOk(db: Db, merged: set<Id>, into: Id, after: seq<Session>)
    requires ItemsOk(db.items, db.sessions, db.invoices) && |after| == |db.sessions|
    requires into !in merged && into < |db.sessions| && db.sessions[into].status == Active && db.sessions[into].request.None?
    requires forall s :: s in merged ==> s < |db.sessions| && db.sessions[s].request.None? && !AnyPaidOrInvoiced(db.items, s)
    requires forall s :: 0 <= s < |after| ==> after[s] == if s in merged then db.sessions[s].(status := Completed) else db.sessions[s]
    ensures ItemsOk(MapItems(db.items, MoveOpen(merged, into)), after, db.invoices)
  {
    var items := MapItems(db.items, MoveOpen(merged, into));
    forall i | 0 <= i < |items| ensures ItemOk(items[i], after, db.invoices) {
      var it := db.items[i];
      assert ItemOk(it, db.sessions, db.invoices);
      if it.session in merged {
        assert ItemIn(it, it.session);
        MovedItemIsOk(it, into, db.sessions, db.invoices);
      }
    }
  }

  lemma MergedWorth(items: seq<Item>, merged: set<Id>, into: Id, s: Id)
    requires s !in merged && s != into
    ensures Total(MapItems(items, MoveOpen(merged, into)), LineIn(s)) == Total(items, LineIn(s))
  {
    TotalsAgree(items, MapItems(items, MoveOpen(merged, into)), LineIn(s), LineIn(s));
  }

  lemma MergedBooks(db: Db, merged: set<Id>, into: Id, after: seq<Session>, capacity: nat)
    requires Inv(db, capacity) && |after| == |db.sessions|
    requires into < |db.sessions| && db.sessions[into].request.None?
    requires forall s :: s in merged ==> s < |db.sessions| && db.sessions[s].request.None?
    requires forall s :: 0 <= s < |after| ==> after[s] == if s in merged then db.sessions[s].(status := Completed) else db.sessions[s]
    ensures var items := MapItems(db.items, MoveOpen(merged, into));
            StockOk(db.stock, items) && LinksOk(items) && InvoicesOk(db.invoices, items, after)
            && RequestsOk(db.requests, after) && OnlineSessionsOk(db.requests, after, items)
  {
    var items := MapItems(db.items, MoveOpen(merged, into));
    SameStockKeeps(db.stock, db.items, items);
    LinksStay(db.items, items);
    LinesStay(db.invoices, db.items, items, db.sessions);
    hide FloorOk, StockOk, ItemsOk, LinksOk, WithinCapacity;
    forall v | 0 <= v < |db.invoices| ensures InvoiceOk(v, db.invoices[v], items, after) {
      assert InvoiceOk(v, db.invoices[v], items, db.sessions);
    }
    forall r | 0 <= r < |db.requests| ensures RequestOk(r, db.requests[r], after) {
      assert RequestOk(r, db.requests[r], db.sessions);
    }
    forall s | 0 <= s < |after| ensures OnlineSessionOk(s, after[s], db.requests, items) {
      assert OnlineSessionOk(s, db.sessions[s], db.requests, db.items);
      if s !in merged && s != into {
        MergedWorth(db.items, merged, into, s);
      }
    }
  }

  lemma MergeTablesKeeps(db: Db, sourceTables: set<Id>, destination: Id, sourceSessions: set<Id>, into: Id, capacity: nat)
    requires Inv(db, capacity)
    ensures Keeps(MergeTables(db, sourceTables, destination, sourceSessions, into), capacity)
  {
    var o := MergeTables(db, sourceTables, destination, sourceSessions, into);
    if o.Ok? {
      var merged := MergeSources(db, sourceTables, sourceSessions);
      forall s | s in merged || s == into ensures s < |db.sessions| && db.sessions[s].request.None? {
        assert OnlineSessionOk(s, db.sessions[s], db.requests, db.items);
      }
      MergeKeeps(db, sourceTables, destination, sourceSessions, into);
      MergedItemsAreOk(db, merged, into, o.db.sessions);
      MergedBooks(db, merged, into, o.db.sessions, capacity);
      hide FloorOk, StockOk, ItemsOk, LinksOk, InvoicesOk, RequestsOk, OnlineSessionsOk, WithinCapacity;
    }
  }

  // ----- splitting -----

  /** The parts of the invariant that look at items, gathered. */
  ghost predicate BooksOk(items: seq<Item>, db: Db) {
    && ItemsOk(items, db.sessions, db.invoices) && StockOk(db.stock, items) && LinksOk(items)
    && InvoicesOk(db.invoices, items, db.sessions) && OnlineSessionsOk(db.requests, db.sessions, items)
  }

  lemma MoveWholeKeeps(items: seq<Item>, db: Db, i: Id, to: Id)
    requires BooksOk(items, db) && i < |items| && !items[i].paid && items[i].invoice.None?
    requires items[i].session < |db.sessions| && db.sessions[items[i].session].request.None?
    requires to < |db.sessions| && db.sessions[to].status == Active && db.sessions[to].request.None?
    ensures BooksOk(items[i := items[i].(session := to)], db)
  {
    var after := items[i := items[i].(session := to)];
    assert ItemOk(items[i], db.sessions, db.invoices);
    MovedItemIsOk(items[i], to, db.sessions, db.invoices);
    SameStockKeeps(db.stock, items, after);
    LinksStay(items, after);
    LinesStay(db.invoices, items, after, db.sessions);
    hide StockOk, LinksOk, InvoicesOk;
    forall s | 0 <= s < |db.sessions| ensures OnlineSessionOk(s, db.sessions[s], db.requests, after) {
      assert OnlineSessionOk(s, db.sessions[s], db.requests, items);
      TotalUpdate(items, i, after[i], LineIn(s));
    }
  }

  /** A pending item that was neither reserved nor invoiced may be shared out between two lines. */
  lemma MovePartKeeps(items: seq<Item>, db: Db, i: Id, q: nat, to: Id)
    requires BooksOk(items, db) && i < |items| && !items[i].paid && items[i].invoice.None? && items[i].status == Pending
    requires items[i].session < |db.sessions| && db.sessions[items[i].session].request.None? && 0 < q < items[i].quantity
    requires to < |db.sessions| && db.sessions[to].status == Active && db.sessions[to].request.None?
    ensures BooksOk(items[i := KeptPart(items[i], q)] + [MovedPart(items[i], q, to)], db)
  {
    assert ItemOk(items[i], db.sessions, db.invoices) && RecipeOk(items[i], |db.stock|);
    var kept := items[i := KeptPart(items[i], q)];
    var part := MovedPart(items[i], q, to);
    assert ItemsOk(kept + [part], db.sessions, db.invoices);
    assert items[i].held == map[] && items[i].consumed == 0;
    KeptStock(items, db.stock, i, q);
    NewItemsKeep(db.stock, kept, [part]);
    LinksStay(items, kept);
    hide StockOk, ItemsOk;
    forall v | 0 <= v < |db.invoices| ensures InvoiceOk(v, db.invoices[v], kept, db.sessions) {
      assert InvoiceOk(v, db.invoices[v], items, db.sessions);
      TotalUpdate(items, i, kept[i], LineOf(v));
    }
    NewLinesStay(db.invoices, kept, [part], db.sessions);
    forall s | 0 <= s < |db.sessions| ensures OnlineSessionOk(s, db.sessions[s], db.requests, kept + [part]) {
      assert OnlineSessionOk(s, db.sessions[s], db.requests, items);
      TotalUpdate(items, i, kept[i], LineIn(s));
      TotalAppend(kept, part, LineIn(s));
    }
  }

  lemma KeptStock(items: seq<Item>, stock: seq<Stock>, i: Id, q: nat)
    requires StockOk(stock, items) && i < |items| && q < items[i].quantity && items[i].held == map[] && items[i].consumed == 0
    ensures StockOk(stock, items[i := KeptPart(items[i], q)])
  {
    var after := items[i := KeptPart(items[i], q)];
    forall k | 0 <= k < |stock| ensures StockRowOk(k, stock[k], after) {
      assert StockRowOk(k, stock[k], items);
      TotalUpdate(items, i, after[i], UsedOf(k));
      TotalUpdate(items, i, after[i], HeldOf(k));
    }
    forall j | 0 <= j < |after| ensures RecipeOk(after[j], |stock|) {
      assert RecipeOk(items[j], |stock|);
    }
  }

  lemma {:induction false} MoveAllFrame(items: seq<Item>, moves: seq<Move>, to: Id, i: Id)
    requires i < |items| && forall j :: 0 <= j < |moves| ==> moves[j].item != i
    ensures |MoveAll(items, moves, to)| >= |items| && MoveAll(items, moves, to)[i] == items[i]
  {
    if moves != [] {
      MoveAllFrame(items, moves[..|moves| - 1], to, i);
    }
  }

  lemma {:induction false} MoveAllKeeps(items: seq<Item>, db: Db, s: Id, moves: seq<Move>, to: Id)
    requires BooksOk(items, db) && CheckMoves(items, s, moves).None? && DistinctItems(moves)
    requires s < |db.sessions| && db.sessions[s].request.None?
    requires to < |db.sessions| && db.sessions[to].status == Active && db.sessions[to].request.None?
    ensures BooksOk(MoveAll(items, moves, to), db)
  {
    hide BooksOk;
    if moves != [] {
      var n := |moves| - 1;
      MoveAllKeeps(items, db, s, moves[..n], to);
      var m := moves[n];
      MoveAllFrame(items, moves[..n], to, m.item);
      var mid := MoveAll(items, moves[..n], to);
      if m.quantity == mid[m.item].quantity {
        MoveWholeKeeps(mid, db, m.item, to);
      } else {
        MovePartKeeps(mid, db, m.item, m.quantity, to);
      }
    }
  }

  lemma SplitTableKeeps(db: Db, s: Id, to: Id, moves: seq<Move>, capacity: nat)
    requires Inv(db, capacity)
    ensures Keeps(SplitTable(db, s, to, moves), capacity)
  {
    var o := SplitTable(db, s, to, moves);
    if o.Ok? {
      var seat := Session(Some(to), Active, None);
      var d := db.(sessions := db.sessions + [seat]);
      NewSessionStays(db.items, db.invoices, db.sessions, seat);
      NewSessionOnline(db, seat, capacity);
      SeatKeeps(db.tables, db.sessions, to, seat);
      assert BooksOk(db.items, d);
      hide FloorOk, StockOk, ItemsOk, LinksOk, InvoicesOk, RequestsOk, OnlineSessionsOk, WithinCapacity;
      MoveAllKeeps(db.items, d, s, moves, |db.sessions|);
    }
  }
}

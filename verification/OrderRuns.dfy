/** What holds in every state that any sequence of transactions of the floor, the kitchen, the desk and the
    online shop can reach. */
module OrderRuns {
  import opened Sums
  import opened OrderTables
  import opened OrderStock
  import opened OrderItems
  import opened OrderFloor
  import opened OrderSteps
  import opened OrderBilling
  import opened OrderOnline

  lemma FloorStepKeeps(db: Db, e: Event, capacity: nat)
    requires Inv(db, capacity)
    requires e.TableAdded? || e.TableDeleted? || e.SessionOpened? || e.SessionCalledOff? || e.TableTransferred? || e.TablesMerged?
             || e.TableSplit? || e.SessionCompleted? || e.TableCleared?
    ensures Keeps(Do(db, e, capacity), capacity)
  {
    hide Inv;
    match e
    case TableAdded => TablesKeep(db, 0, capacity);
    case TableDeleted(t) => TablesKeep(db, t, capacity);
    case SessionOpened(at) => OpenSessionKeeps(db, at, capacity);
    case SessionCalledOff(s) => CancelSessionKeeps(db, s, capacity);
    case TableTransferred(s, from, to) => TransferTableKeeps(db, s, from, to, capacity);
    case TablesMerged(sourceTables, destination, sourceSessions, into) =>
      MergeTablesKeeps(db, sourceTables, destination, sourceSessions, into, capacity);
    case TableSplit(s, to, moves) => SplitTableKeeps(db, s, to, moves, capacity);
    case SessionCompleted(s) => CompleteSessionKeeps(db, s, capacity);
    case TableCleared(t, expected) => ClearTableKeeps(db, t, expected, capacity);
  }

  lemma DeskStepKeeps(db: Db, e: Event, capacity: nat)
    requires Inv(db, capacity)
    requires e.Invoiced? || e.InvoicePaid? || e.InvoicePaidOnline? || e.InvoiceReserved? || e.InvoiceVoided? || e.InvoiceRefunded?
    ensures Keeps(Do(db, e, capacity), capacity)
  {
    hide Inv;
    match e
    case Invoiced(s, chosen, discount, rate, paid, closing) => CreateInvoiceKeeps(db, s, chosen, discount, rate, paid, closing, capacity);
    case InvoicePaid(v, closing) => PayInvoiceKeeps(db, v, closing, capacity);
    case InvoicePaidOnline(v, closing) => PayInvoiceKeeps(db, v, closing, capacity);
    case InvoiceReserved(v) => ReservePendingKeeps(db, v, capacity);
    case InvoiceVoided(v) => VoidInvoiceKeeps(db, v, capacity);
    case InvoiceRefunded(v, all) => RefundInvoiceKeeps(db, v, all, capacity);
  }

  lemma StockStepKeeps(db: Db, k: Id, delta: int, capacity: nat)
    requires Inv(db, capacity)
    ensures Keeps(AdjustStock(db, k, delta), capacity) && Inv(db.(stock := db.stock + [Stock(0, 0, 0)]), capacity)
  {
    hide FloorOk, StockOk, ItemsOk, LinksOk, InvoicesOk, RequestsOk, OnlineSessionsOk, WithinCapacity;
    NewIngredientKeeps(db.stock, db.items);
    if AdjustStock(db, k, delta).Ok? {
      AdjustKeeps(db, k, delta);
    }
  }

  lemma StepKeeps(db: Db, e: Event, capacity: nat)
    requires Inv(db, capacity)
    ensures Inv(Step(db, e, capacity), capacity)
  {
    hide Inv;
    match e
    case IngredientAdded => StockStepKeeps(db, 0, 0, capacity);
    case StockAdjusted(k, delta) => StockStepKeeps(db, k, delta, capacity);
    case ItemsAdded(s, lines) => AddItemsKeeps(db, s, lines, capacity);
    case StatusChanged(i, next, handoffOnly, pickup, due) => ChangeStatusKeeps(db, i, next, handoffOnly, pickup, due, capacity);
    case ItemCancelled(i, hasReason) => CancelItemKeeps(db, i, hasReason, capacity);
    case ItemRemade(i, routable) => RemakeItemKeeps(db, i, routable, capacity);
    case RequestSubmitted(quotes, pickupAt, expiresAt) => SubmitRequestKeeps(db, quotes, pickupAt, expiresAt, capacity);
    case RequestAccepted(r, lines, now) => AcceptRequestKeeps(db, r, lines, now, capacity);
    case RequestRejected(r, now) => RejectRequestKeeps(db, r, now, capacity);
    case RequestCollected(r) => if CollectRequest(db, r).Collected? { CollectKeeps(db, r, capacity); }
    case RequestCalledOff(r) => CancelRequestKeeps(db, r, capacity);
    case Invoiced(_, _, _, _, _, _) => DeskStepKeeps(db, e, capacity);
    case InvoicePaid(_, _) => DeskStepKeeps(db, e, capacity);
    case InvoicePaidOnline(_, _) => DeskStepKeeps(db, e, capacity);
    case InvoiceReserved(_) => DeskStepKeeps(db, e, capacity);
    case InvoiceVoided(_) => DeskStepKeeps(db, e, capacity);
    case InvoiceRefunded(_, _) => DeskStepKeeps(db, e, capacity);
    case _ => FloorStepKeeps(db, e, capacity);
  }

  lemma {:induction false} RunKeeps(events: seq<Event>, capacity: nat)
    ensures Inv(Run(EMPTY, events, capacity), capacity)
  {
    if events == [] {
      assert OneSessionEach([]);
    } else {
      RunKeeps(events[..|events| - 1], capacity);
      StepKeeps(Run(EMPTY, events[..|events| - 1], capacity), events[|events| - 1], capacity);
    }
  }

  // ----- theorems -----

  /** The tables after some run from the empty shop. */
  ghost predicate Reachable(db: Db, capacity: nat) {
    exists events :: db == Run(EMPTY, events, capacity)
  }

  lemma ReachableInv(db: Db, capacity: nat)
    requires Reachable(db, capacity)
    ensures Inv(db, capacity)
  {
    var events :| db == Run(EMPTY, events, capacity);
    RunKeeps(events, capacity);
  }

  /** A table is OCCUPIED exactly when it has an active session, and no table ever has two. */
  lemma TableIsOccupiedIffActive(db: Db, capacity: nat, t: Id)
    requires Reachable(db, capacity) && t < |db.tables|
    ensures
      && (db.tables[t].status == Occupied <==> exists s: Id :: ActiveAt(db.sessions, s, t))
      && (db.tables[t].status == Empty <==> !exists s: Id :: ActiveAt(db.sessions, s, t))
      && forall r, s :: ActiveAt(db.sessions, r, t) && ActiveAt(db.sessions, s, t) ==> r == s
  {
    ReachableInv(db, capacity);
    assert TableOk(t, db.tables[t], db.sessions);
  }

  /** Stock on hand is what was received less what the items consumed; what is reserved is what the items
      hold, and never more than what is on hand. */
  lemma StockIsConserved(db: Db, capacity: nat, k: Id)
    requires Reachable(db, capacity) && k < |db.stock|
    ensures var st := db.stock[k];
            && st.stock == st.received - Total(db.items, UsedOf(k))
            && st.reserved == Total(db.items, HeldOf(k))
            && 0 <= st.reserved <= st.stock
  {
    ReachableInv(db, capacity);
    assert StockRowOk(k, db.stock[k], db.items);
  }

  /** Every item is consumed once at most, exactly if its preparation ever started, and written off once at
      most and only after that; it is written off if it was cancelled after preparation or remade. */
  lemma ItemIsConsumedOnce(db: Db, capacity: nat, i: Id)
    requires Reachable(db, capacity) && i < |db.items|
    ensures var it := db.items[i];
            && it.wasted <= it.consumed <= 1
            && (Prepared(it.status) ==> it.consumed == 1) && (it.status == Pending ==> it.consumed == 0)
            && (it.wasted == 1 <==> it.consumed == 1 && (it.status == Cancelled || it.remadeAs.Some?))
  {
    ReachableInv(db, capacity);
    assert ItemOk(db.items[i], db.sessions, db.invoices);
  }

  /** The branches for a reservation that no longer matches its order, or that has gone, are dead. */
  lemma ReservationsAlwaysMatch(db: Db, capacity: nat, i: Id, v: Id, s: Id)
    requires Reachable(db, capacity)
    ensures
      && ReservePending(db, OnInvoice(v)) != Fail(Conflict) && ReservePending(db, InSession(s)) != Fail(Conflict)
      && Release(db, LiveIn(s)).Ok? && Release(db, PendingOn(v)).Ok?
      && (i < |db.items| ==> Consume(db, i) != Fail(Conflict) && ReleaseItem(db, i).Ok?)
  {
    ReachableInv(db, capacity);
    ReserveKeeps(db, OnInvoice(v));
    ReserveKeeps(db, InSession(s));
    ReleaseKeeps(db, LiveIn(s));
    ReleaseKeeps(db, PendingOn(v));
    if i < |db.items| {
      ConsumeKeeps(db, i);
      ReleaseItemKeeps(db, i);
    }
  }

  /** Unless it is void, an invoice's subtotal is the sum of price times quantity over the items linked to
      it; a linked item is in the invoice's session, is live, and is paid exactly when the invoice is. */
  lemma InvoiceIsTheSumOfItsItems(db: Db, capacity: nat, v: Id, i: Id)
    requires Reachable(db, capacity) && v < |db.invoices| && i < |db.items|
    ensures var inv := db.invoices[v]; var it := db.items[i];
            && (inv.status != Voided ==> inv.subTotal == Total(db.items, LineOf(v)))
            && (it.invoice == Some(v) ==> inv.status != Voided && it.session == inv.session && it.status != Cancelled
                                          && (it.paid <==> inv.status != Unpaid))
  {
    ReachableInv(db, capacity);
    assert InvoiceOk(v, db.invoices[v], db.items, db.sessions) && ItemOk(db.items[i], db.sessions, db.invoices);
  }

  /** A completed session has no live unpaid item, a cancelled one only cancelled items. */
  lemma EndedSessionsAreSettled(db: Db, capacity: nat, i: Id)
    requires Reachable(db, capacity) && i < |db.items|
    ensures var it := db.items[i];
            && it.session < |db.sessions|
            && (db.sessions[it.session].status == Completed ==> it.status == Cancelled || it.paid)
            && (db.sessions[it.session].status == SessionCancelled ==> it.status == Cancelled)
            && (it.paid ==> it.invoice.Some? || (it.remakeOf.Some? && it.price == 0))
  {
    ReachableInv(db, capacity);
    assert ItemOk(db.items[i], db.sessions, db.invoices);
  }

  /** What the kitchen ticket says is what was ordered, after any splits. */
  lemma TicketSaysWhatWasOrdered(db: Db, capacity: nat, i: Id)
    requires Reachable(db, capacity) && i < |db.items| && db.items[i].ticket.Some?
    ensures db.items[i].ticket.value == db.items[i].quantity
  {
    ReachableInv(db, capacity);
    assert ItemOk(db.items[i], db.sessions, db.invoices);
  }

  /** An item has one replacement at most, which is free, and a replacement is never remade itself. */
  lemma OneRemakeEach(db: Db, capacity: nat, i: Id, j: Id)
    requires Reachable(db, capacity)
    requires var items := db.items; i < |items| && j < |items| && items[i].remakeOf.Some?
    ensures var items := db.items;
            && items[i].remadeAs.None? && items[i].price == 0 && items[i].remakeOf.value < |items|
            && items[items[i].remakeOf.value].status == Served && items[items[i].remakeOf.value].wasted == 1
            && (items[j].remakeOf == items[i].remakeOf ==> i == j)
  {
    ReachableInv(db, capacity);
    assert LinkOk(i, db.items[i], db.items) && LinkOk(j, db.items[j], db.items);
    assert ItemOk(db.items[i], db.sessions, db.invoices);
    assert ItemOk(db.items[db.items[i].remakeOf.value], db.sessions, db.invoices);
  }

  /** The accepted orders of a pickup slot never exceed its capacity, so what the shop advertises as remaining
      is exactly capacity less booked. */
  lemma SlotsStayWithinCapacity(db: Db, capacity: nat, pickupAt: int)
    requires Reachable(db, capacity)
    ensures var booked := Total(db.requests, BookedAt(pickupAt));
            0 <= booked <= capacity && (if capacity - booked > 0 then capacity - booked else 0) == capacity - booked
  {
    ReachableInv(db, capacity);
    TotalNonNegative(db.requests, BookedAt(pickupAt));
  }

  /** The customer pays the quote: the branch for a changed total never runs, and the invoice of a collection
      is for exactly the quoted subtotal. */
  lemma CustomerPaysTheQuote(db: Db, capacity: nat, r: Id)
    requires Reachable(db, capacity)
    ensures var c := CollectRequest(db, r);
            && c != TotalChanged
            && (c.Collected? && c.outcome.Ok? ==>
                 var v := |db.invoices|; var d := c.outcome.db;
                 && |d.invoices| == v + 1 && d.invoices[v].total == d.invoices[v].subTotal == db.requests[r].quotedSubtotal
                 && db.requests[r].quotedSubtotal == QuotedTotal(db.requests[r].quotes) && d.invoices[v].status == Paid)
  {
    ReachableInv(db, capacity);
    if r < |db.requests| && db.requests[r].session.Some? {
      TotalIsAsQuoted(db, r, db.requests[r].session.value, capacity);
      if CollectRequest(db, r).Collected? && CollectRequest(db, r).outcome.Ok? {
        CollectedTotal(db, r, capacity);
      }
    }
  }

  lemma CollectedTotal(db: Db, r: Id, capacity: nat)
    requires Inv(db, capacity) && CollectRequest(db, r).Collected? && CollectRequest(db, r).outcome.Ok?
    ensures var v := |db.invoices|; var d := CollectRequest(db, r).outcome.db;
            |d.invoices| == v + 1 && d.invoices[v].total == d.invoices[v].subTotal == db.requests[r].quotedSubtotal && d.invoices[v].status == Paid
  {
    CollectingHolds(db, r);
    var s := db.requests[r].session.value;
    var v := |db.invoices|;
    CollectedItems(db, r, s);
    TotalIsAsQuoted(db, r, s, capacity);
    CollectKeeps(db, r, capacity);
    var d := CollectRequest(db, r).outcome.db;
    hide CollectRequest;
    assert InvoiceOk(v, d.invoices[v], d.items, d.sessions);
    forall i | 0 <= i < |db.items| ensures LineOf(v)(d.items[i]) == LineIn(s)(db.items[i]) {
      assert ItemOk(db.items[i], db.sessions, db.invoices);
    }
    TotalsAgree(d.items, db.items, LineOf(v), LineIn(s));
    TotalNonNegative(db.items, LineIn(s));
  }

  // ----- what never goes back -----

  function Rank(s: ServeStatus): nat {
    match s
    case Pending => 0
    case Cooking => 1
    case Ready => 2
    case Served => 3
    case Cancelled => 4
  }

  /** The serve status only advances, a paid item stays paid, the counters only grow, and what was ordered at
      which price and recipe is fixed. */
  predicate Ages(it: Item, after: Item) {
    && Rank(it.status) <= Rank(after.status) && (it.paid ==> after.paid)
    && it.consumed <= after.consumed && it.wasted <= after.wasted
    && after.menuItem == it.menuItem && after.price == it.price && after.recipe == it.recipe && after.remakeOf == it.remakeOf
  }

  ghost predicate AllAge(before: seq<Item>, after: seq<Item>) {
    |before| <= |after| && forall i :: 0 <= i < |before| ==> Ages(before[i], after[i])
  }

  lemma AgeTwice(a: seq<Item>, b: seq<Item>, c: seq<Item>)
    requires AllAge(a, b) && AllAge(b, c)
    ensures AllAge(a, c)
  {
    forall i | 0 <= i < |a| ensures Ages(a[i], c[i]) {
      assert Ages(a[i], b[i]) && Ages(b[i], c[i]);
    }
  }

  lemma {:induction false} LinkAllAges(items: seq<Item>, ids: seq<Id>, v: Id, paid: bool)
    requires forall i :: 0 <= i < |ids| ==> ids[i] < |items|
    ensures AllAge(items, LinkAll(items, ids, v, paid))
  {
    if ids != [] {
      LinkAllAges(items, ids[..|ids| - 1], v, paid);
      AgeTwice(items, LinkAll(items, ids[..|ids| - 1], v, paid), LinkAll(items, ids, v, paid));
    }
  }

  lemma {:induction false} MoveAllAges(items: seq<Item>, moves: seq<Move>, to: Id)
    ensures AllAge(items, MoveAll(items, moves, to))
  {
    if moves != [] {
      MoveAllAges(items, moves[..|moves| - 1], to);
      AgeTwice(items, MoveAll(items, moves[..|moves| - 1], to), MoveAll(items, moves, to));
    }
  }

  lemma BulkMovesAge(db: Db, sel: Item -> bool)
    ensures ReservePending(db, sel).Ok? ==> AllAge(db.items, ReservePending(db, sel).db.items)
    ensures Release(db, sel).Ok? ==> AllAge(db.items, Release(db, sel).db.items)
  {
  }

  lemma OneMoveAges(db: Db, i: Id)
    requires i < |db.items|
    ensures Consume(db, i).Ok? ==> AllAge(db.items, Consume(db, i).db.items)
    ensures ReleaseItem(db, i).Ok? ==> AllAge(db.items, ReleaseItem(db, i).db.items)
  {
  }

  lemma StockMovesAge(db: Db, sel: Item -> bool, i: Id)
    ensures ReservePending(db, sel).Ok? ==> AllAge(db.items, ReservePending(db, sel).db.items)
    ensures Release(db, sel).Ok? ==> AllAge(db.items, Release(db, sel).db.items)
    ensures i < |db.items| && Consume(db, i).Ok? ==> AllAge(db.items, Consume(db, i).db.items)
    ensures i < |db.items| && ReleaseItem(db, i).Ok? ==> AllAge(db.items, ReleaseItem(db, i).db.items)
  {
    hide AllAge, ReservePending, Release, Consume, ReleaseItem;
    BulkMovesAge(db, sel);
    if i < |db.items| {
      OneMoveAges(db, i);
    }
  }

  lemma MapAges(items: seq<Item>, f: Item -> Item)
    requires forall it: Item :: Ages(it, f(it))
    ensures AllAge(items, MapItems(items, f))
  {
  }

  lemma OneAges(items: seq<Item>, i: Id, it: Item)
    requires i < |items| && Ages(items[i], it)
    ensures AllAge(items, items[i := it])
  {
  }

  lemma CallOffAges(db: Db, s: Id)
    requires s < |db.sessions| && CallOff(db, s).Ok?
    ensures AllAge(db.items, CallOff(db, s).db.items)
  {
    StockMovesAge(db, LiveIn(s), 0);
    var r := Release(db, LiveIn(s)).db;
    MapAges(r.items, CancelOpen(s));
    hide Release, AllAge;
    AgeTwice(db.items, r.items, CallOff(db, s).db.items);
  }

  lemma ChangeStatusAges(db: Db, i: Id, next: ServeStatus, handoffOnly: bool, pickup: Pickup, due: bool)
    requires ChangeStatus(db, i, next, handoffOnly, pickup, due).Ok?
    ensures AllAge(db.items, ChangeStatus(db, i, next, handoffOnly, pickup, due).db.items)
  {
    hide Consume;
    var o := ChangeStatus(db, i, next, handoffOnly, pickup, due);
    if o.db != db {
      var d := db.(items := db.items[i := db.items[i].(status := next)]);
      StockMovesAge(d, InSession(0), i);
      OneAges(db.items, i, d.items[i]);
      hide AllAge;
      if next == Cooking {
        AgeTwice(db.items, d.items, o.db.items);
      }
    }
  }

  lemma CancelItemAges(db: Db, i: Id, hasReason: bool)
    requires CancelItem(db, i, hasReason).Ok?
    ensures AllAge(db.items, CancelItem(db, i, hasReason).db.items)
  {
    hide ReleaseItem;
    var wasted := db.items[i].wasted + if Prepared(db.items[i].status) then 1 else 0;
    var d := db.(items := db.items[i := db.items[i].(status := Cancelled, wasted := wasted)]);
    StockMovesAge(d, InSession(0), i);
    OneAges(db.items, i, d.items[i]);
    hide AllAge;
    AgeTwice(db.items, d.items, CancelItem(db, i, hasReason).db.items);
  }

  lemma PayInvoiceAges(db: Db, v: Id, closing: bool)
    ensures PayInvoice(db, v, closing).Ok? ==> AllAge(db.items, PayInvoice(db, v, closing).db.items)
    ensures PayOnline(db, v, closing).Ok? ==> AllAge(db.items, PayOnline(db, v, closing).db.items)
  {
    hide ReservePending;
    if v < |db.invoices| {
      MapAges(db.items, PayLine(v));
      StockMovesAge(MarkPaid(db, v), OnInvoice(v), 0);
      hide AllAge;
      if PayInvoice(db, v, closing).Ok? {
        AgeTwice(db.items, MarkPaid(db, v).items, PayInvoice(db, v, closing).db.items);
      }
    }
  }

  lemma VoidInvoiceAges(db: Db, v: Id)
    requires VoidInvoice(db, v).Ok?
    ensures AllAge(db.items, VoidInvoice(db, v).db.items)
  {
    hide Release;
    StockMovesAge(db, PendingOn(v), 0);
    var r := if db.sessions[db.invoices[v].session].request.None? then Release(db, PendingOn(v)).db else db;
    MapAges(r.items, Unlink(v));
    hide AllAge;
    if db.sessions[db.invoices[v].session].request.None? {
      AgeTwice(db.items, r.items, VoidInvoice(db, v).db.items);
    }
  }

  lemma InvoiceAges(db: Db, s: Id, chosen: Option<seq<Id>>, discount: nat, rate: nat, paid: bool, closing: bool, onlinePickup: bool)
    requires CreateInvoice(db, s, chosen, discount, rate, paid, closing, onlinePickup).Ok?
    ensures AllAge(db.items, CreateInvoice(db, s, chosen, discount, rate, paid, closing, onlinePickup).db.items)
  {
    CreateInvoiceShape(db, s, chosen, discount, rate, paid, closing, onlinePickup);
    hide CreateInvoice, ReservePending;
    var ids := ChosenIds(db, s, chosen);
    var d := Billed(db, s, ids, Bill(s, SubTotal(db.items, ids), discount, rate, paid), paid);
    LinkAllAges(db.items, ids, |db.invoices|, paid);
    StockMovesAge(d, OnInvoice(|db.invoices|), 0);
    AgeTwice(db.items, d.items, ReservePending(d, OnInvoice(|db.invoices|)).db.items);
  }

  lemma AcceptAges(db: Db, r: Id, lines: seq<Line>, now: int, capacity: nat)
    requires AcceptRequest(db, r, lines, now, capacity).Ok?
    ensures AllAge(db.items, AcceptRequest(db, r, lines, now, capacity).db.items)
  {
    AcceptShape(db, r, lines, now, capacity);
    StockMovesAge(Opened(db, r, lines), InSession(|db.sessions|), 0);
    assert AllAge(db.items, Opened(db, r, lines).items);
    hide AcceptRequest, ReservePending, AllAge;
    AgeTwice(db.items, Opened(db, r, lines).items, AcceptRequest(db, r, lines, now, capacity).db.items);
  }

  lemma CollectAges(db: Db, r: Id)
    requires CollectRequest(db, r).Collected? && CollectRequest(db, r).outcome.Ok?
    ensures AllAge(db.items, CollectRequest(db, r).outcome.db.items)
  {
    hide CreateInvoice;
    var s := db.requests[r].session.value;
    InvoiceAges(db, s, None, 0, 0, true, true, true);
    var o := CreateInvoice(db, s, None, 0, 0, true, true, true);
    MapAges(o.db.items, ServeOn(|db.invoices|));
    hide AllAge;
    AgeTwice(db.items, o.db.items, CollectRequest(db, r).outcome.db.items);
  }

  lemma CancelRequestAges(db: Db, r: Id)
    requires CancelRequest(db, r).Ok?
    ensures AllAge(db.items, CancelRequest(db, r).db.items)
  {
    hide CallOff;
    var s := db.requests[r].session.value;
    var w := db.(items := MapItems(db.items, WasteStarted(s)));
    MapAges(db.items, WasteStarted(s));
    CallOffAges(w, s);
    hide AllAge;
    AgeTwice(db.items, w.items, CancelRequest(db, r).db.items);
  }

  lemma ClearTableAges(db: Db, t: Id, expected: Option<Id>)
    requires ClearTable(db, t, expected).Ok?
    ensures AllAge(db.items, ClearTable(db, t, expected).db.items)
  {
    hide CallOff;
    if FindActive(db.sessions, t).Some? {
      CallOffAges(db, FindActive(db.sessions, t).value);
      hide AllAge;
    }
  }

  lemma EveryAges(items: seq<Item>)
    ensures AllAge(items, items)
  {
  }

  lemma MergeAges(db: Db, sourceTables: set<Id>, destination: Id, sourceSessions: set<Id>, into: Id)
    requires MergeTables(db, sourceTables, destination, sourceSessions, into).Ok?
    ensures AllAge(db.items, MergeTables(db, sourceTables, destination, sourceSessions, into).db.items)
  {
    MapAges(db.items, MoveOpen(MergeSources(db, sourceTables, sourceSessions), into));
    hide AllAge;
  }

  lemma SplitAges(db: Db, s: Id, to: Id, moves: seq<Move>)
    requires SplitTable(db, s, to, moves).Ok?
    ensures AllAge(db.items, SplitTable(db, s, to, moves).db.items)
  {
    MoveAllAges(db.items, moves, |db.sessions|);
    hide AllAge;
  }

  lemma CancelSessionAges(db: Db, s: Id)
    requires CancelSession(db, s).Ok?
    ensures AllAge(db.items, CancelSession(db, s).db.items)
  {
    hide CallOff;
    CallOffAges(db, s);
    hide AllAge;
  }

  /** Transactions that add items or leave them alone. */
  lemma QuietAges(db: Db, e: Event, capacity: nat)
    requires e.TableAdded? || e.TableDeleted? || e.IngredientAdded? || e.StockAdjusted? || e.SessionOpened? || e.ItemsAdded?
             || e.TableTransferred? || e.SessionCompleted? || e.InvoiceRefunded? || e.ItemRemade? || e.RequestSubmitted? || e.RequestRejected?
    ensures AllAge(db.items, Step(db, e, capacity).items)
  {
  }

  lemma StepAges(db: Db, e: Event, capacity: nat)
    ensures AllAge(db.items, Step(db, e, capacity).items)
  {
    hide AllAge, ReservePending, MergeTables, SplitTable;
    hide ChangeStatus, CancelItem, PayInvoice, PayOnline, VoidInvoice, CreateInvoice, AcceptRequest, CollectRequest, CancelRequest, ClearTable, CancelSession;
    if Do(db, e, capacity).Ok? {
      match e
      case StatusChanged(i, next, handoffOnly, pickup, due) => ChangeStatusAges(db, i, next, handoffOnly, pickup, due);
      case ItemCancelled(i, hasReason) => CancelItemAges(db, i, hasReason);
      case InvoicePaid(v, closing) => PayInvoiceAges(db, v, closing);
      case InvoicePaidOnline(v, closing) => PayInvoiceAges(db, v, closing);
      case InvoiceReserved(v) => StockMovesAge(db, OnInvoice(v), 0);
      case InvoiceVoided(v) => VoidInvoiceAges(db, v);
      case Invoiced(s, chosen, discount, rate, paid, closing) => InvoiceAges(db, s, chosen, discount, rate, paid, closing, false);
      case RequestAccepted(r, lines, now) => AcceptAges(db, r, lines, now, capacity);
      case RequestCollected(r) => CollectAges(db, r);
      case RequestCalledOff(r) => CancelRequestAges(db, r);
      case SessionCalledOff(s) => CancelSessionAges(db, s);
      case TablesMerged(sourceTables, destination, sourceSessions, into) => MergeAges(db, sourceTables, destination, sourceSessions, into);
      case TableSplit(s, to, moves) => SplitAges(db, s, to, moves);
      case TableCleared(t, expected) => ClearTableAges(db, t, expected);
      case _ => QuietAges(db, e, capacity);
    } else {
      EveryAges(db.items);
    }
  }

  /** Over any further run no item disappears, goes back in its status, becomes unpaid, or has its
      consumption or waste taken back: a count of one means one time over the whole run. */
  lemma {:induction false} ItemsOnlyAge(db: Db, events: seq<Event>, capacity: nat)
    ensures AllAge(db.items, Run(db, events, capacity).items)
  {
    if events != [] {
      ItemsOnlyAge(db, events[..|events| - 1], capacity);
      StepAges(Run(db, events[..|events| - 1], capacity), events[|events| - 1], capacity);
      AgeTwice(db.items, Run(db, events[..|events| - 1], capacity).items, Run(db, events, capacity).items);
    }
  }
}

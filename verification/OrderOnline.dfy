/** Online orders from request to collection keep the invariant, and so does every run. */
module OrderOnline {
  import opened Sums
  import opened OrderTables
  import MenuSelection
  import opened OrderStock
  import opened OrderItems
  import opened OrderFloor
  import opened OrderSteps
  import opened OrderBilling

  // ----- requests -----

  lemma SubmitRequestKeeps(db: Db, quotes: seq<Quote>, pickupAt: Option<int>, expiresAt: int, capacity: nat)
    requires Inv(db, capacity)
    ensures Keeps(SubmitRequest(db, quotes, pickupAt, expiresAt), capacity)
  {
    var o := SubmitRequest(db, quotes, pickupAt, expiresAt);
    if o.Ok? {
      var q := o.db.requests[|db.requests|];
      hide FloorOk, StockOk, ItemsOk, LinksOk, InvoicesOk;
      forall r | 0 <= r < |o.db.requests| ensures RequestOk(r, o.db.requests[r], db.sessions) {
        if r < |db.requests| {
          assert RequestOk(r, db.requests[r], db.sessions);
        }
      }
      forall s | 0 <= s < |db.sessions| ensures OnlineSessionOk(s, db.sessions[s], o.db.requests, db.items) {
        assert OnlineSessionOk(s, db.sessions[s], db.requests, db.items);
      }
      forall p: int ensures Total(o.db.requests, BookedAt(p)) <= capacity {
        TotalAppend(db.requests, q, BookedAt(p));
      }
    }
  }

  lemma FreedSlot(requests: seq<OnlineRequest>, r: Id, q: OnlineRequest, capacity: nat)
    requires WithinCapacity(requests, capacity) && r < |requests| && q.status != Accepted
    ensures WithinCapacity(requests[r := q], capacity)
  {
    forall p: int ensures Total(requests[r := q], BookedAt(p)) <= capacity {
      TotalUpdate(requests, r, q, BookedAt(p));
    }
  }

  lemma RejectRequestKeeps(db: Db, r: Id, now: int, capacity: nat)
    requires Inv(db, capacity)
    ensures Keeps(RejectRequest(db, r, now), capacity)
  {
    var o := RejectRequest(db, r, now);
    if o.Ok? {
      FreedSlot(db.requests, r, o.db.requests[r], capacity);
      hide FloorOk, StockOk, ItemsOk, LinksOk, InvoicesOk, WithinCapacity;
      forall k | 0 <= k < |db.requests| ensures RequestOk(k, o.db.requests[k], db.sessions) {
        assert RequestOk(k, db.requests[k], db.sessions);
      }
      forall s | 0 <= s < |db.sessions| ensures OnlineSessionOk(s, db.sessions[s], o.db.requests, db.items) {
        assert OnlineSessionOk(s, db.sessions[s], db.requests, db.items);
      }
    }
  }

  // ----- quotes -----

  /** The menu item sells this set of options for that price, under those names and surcharges. */
  ghost predicate Sells(m: MenuSelection.MenuItem, chosen: set<MenuSelection.Id>, price: int, selected: seq<MenuSelection.Selected>) {
    exists recipe :: MenuSelection.Answers(m, chosen, MenuSelection.Resolved(price, selected, recipe))
  }

  lemma SellsOneWay(m: MenuSelection.MenuItem, chosen: set<MenuSelection.Id>, price: int, selected: seq<MenuSelection.Selected>,
                    other: int, others: seq<MenuSelection.Selected>)
    requires Sells(m, chosen, price, selected) && Sells(m, chosen, other, others)
    ensures price == other && selected == others && MenuSelection.SetOf(MenuSelection.StoredIds(selected)) == chosen
  {
    var a :| MenuSelection.Answers(m, chosen, MenuSelection.Resolved(price, selected, a));
    var b :| MenuSelection.Answers(m, chosen, MenuSelection.Resolved(other, others, b));
    MenuSelection.OnlyTheSetMatters(m, chosen, MenuSelection.Resolved(price, selected, a), MenuSelection.Resolved(other, others, b));
    MenuSelection.StoredIdsAreTheSet(m, chosen);
  }

  /** The lines are the quoted ones, with the options whose ids the quotes stored resolved against the menu. */
  ghost predicate ResolvedFrom(lines: seq<Line>, quotes: seq<Quote>, menu: seq<MenuSelection.MenuItem>) {
    |lines| == |quotes| == |menu| && forall i :: 0 <= i < |lines| ==>
      && lines[i].menuItem == quotes[i].menuItem && lines[i].quantity == quotes[i].quantity
      && Sells(menu[i], MenuSelection.SetOf(MenuSelection.StoredIds(quotes[i].selected)), lines[i].price, lines[i].selected)
  }

  /** The quotes say what the menu sells the chosen options for. */
  ghost predicate QuotedFrom(quotes: seq<Quote>, chosen: seq<set<MenuSelection.Id>>, menu: seq<MenuSelection.MenuItem>) {
    |quotes| == |chosen| == |menu| && forall i :: 0 <= i < |quotes| ==> Sells(menu[i], chosen[i], quotes[i].price, quotes[i].selected)
  }

  /** An order quoted from one menu is accepted at another exactly if that one still sells what the customer
      chose at the same price under the same names and surcharges; if nothing has changed, it is. */
  lemma QuotesHoldIfStillSold(quotes: seq<Quote>, chosen: seq<set<MenuSelection.Id>>, menu: seq<MenuSelection.MenuItem>,
                              later: seq<MenuSelection.MenuItem>, lines: seq<Line>)
    requires QuotedFrom(quotes, chosen, menu) && ResolvedFrom(lines, quotes, later)
    ensures QuotesHold(quotes, lines) <==> QuotedFrom(quotes, chosen, later)
    ensures later == menu ==> QuotesHold(quotes, lines)
  {
    forall i | 0 <= i < |quotes|
      ensures Sells(later[i], chosen[i], lines[i].price, lines[i].selected)
      ensures Sells(later[i], chosen[i], quotes[i].price, quotes[i].selected) <==>
                lines[i].price == quotes[i].price && lines[i].selected == quotes[i].selected
    {
      hide Sells;
      SellsOneWay(menu[i], chosen[i], quotes[i].price, quotes[i].selected, quotes[i].price, quotes[i].selected);
      if Sells(later[i], chosen[i], quotes[i].price, quotes[i].selected) {
        SellsOneWay(later[i], chosen[i], quotes[i].price, quotes[i].selected, lines[i].price, lines[i].selected);
      }
    }
    hide Sells;
  }

  // ----- acceptance -----

  /** The lines resolved at acceptance are worth what was quoted. */
  lemma {:induction false} QuotedLines(s: Id, quotes: seq<Quote>, lines: seq<Line>, more: seq<Item>)
    requires QuotesHold(quotes, lines) && |more| == |lines| && forall i :: 0 <= i < |more| ==> SameWorth(more[i], NewItem(s, lines[i]))
    ensures Total(more, LineIn(s)) == QuotedTotal(quotes)
  {
    if quotes != [] {
      var n := |quotes| - 1;
      QuotedLines(s, quotes[..n], lines[..n], more[..n]);
    }
  }

  lemma AcceptedSlot(requests: seq<OnlineRequest>, r: Id, s: Id, capacity: nat)
    requires WithinCapacity(requests, capacity) && r < |requests| && requests[r].status == RequestPending
    requires requests[r].pickupAt.Some? ==> Total(requests, BookedAt(requests[r].pickupAt.value)) < capacity
    ensures WithinCapacity(requests[r := requests[r].(status := Accepted, session := Some(s))], capacity)
  {
    var q := requests[r].(status := Accepted, session := Some(s));
    forall p: int ensures Total(requests[r := q], BookedAt(p)) <= capacity {
      TotalUpdate(requests, r, q, BookedAt(p));
    }
  }

  /** The tables with the new session and its lines, before stock is reserved. */
  function Opened(db: Db, r: Id, lines: seq<Line>): Db {
    AddLines(db.(sessions := db.sessions + [Session(None, Active, Some(r))]), |db.sessions|, lines)
  }

  lemma OpenedItemsAreOk(db: Db, r: Id, lines: seq<Line>, d: Db)
    requires ItemsOk(db.items, db.sessions, db.invoices)
    requires |d.items| == |db.items| + |lines| && d.sessions == db.sessions + [Session(None, Active, Some(r))] && d.invoices == db.invoices
    requires forall i :: 0 <= i < |db.items| ==> d.items[i] == db.items[i]
    requires forall i :: 0 <= i < |lines| ==> lines[i].quantity > 0
    requires forall i :: 0 <= i < |lines| ==> d.items[|db.items| + i] == Hold(InSession(|db.sessions|))(NewItem(|db.sessions|, lines[i]))
    ensures ItemsOk(d.items, d.sessions, d.invoices)
  {
    forall k | 0 <= k < |d.items| ensures ItemOk(d.items[k], d.sessions, d.invoices) {
      if k < |db.items| {
        assert ItemOk(db.items[k], db.sessions, db.invoices);
      } else {
        assert d.items[k] == Hold(InSession(|db.sessions|))(NewItem(|db.sessions|, lines[k - |db.items|]));
      }
    }
  }

  lemma ItemsHaveSessions(db: Db)
    requires ItemsOk(db.items, db.sessions, db.invoices)
    ensures forall i :: 0 <= i < |db.items| ==> db.items[i].session < |db.sessions|
  {
    forall i | 0 <= i < |db.items| ensures db.items[i].session < |db.sessions| {
      assert ItemOk(db.items[i], db.sessions, db.invoices);
    }
  }

  lemma OpenedStock(db: Db, r: Id, lines: seq<Line>)
    requires StockOk(db.stock, db.items) && forall i :: 0 <= i < |lines| ==> LineOk(lines[i], |db.stock|)
    ensures StockOk(db.stock, Opened(db, r, lines).items)
  {
    var more := NewItems(|db.sessions|, lines);
    forall i | 0 <= i < |lines| ensures RecipeOk(more[i], |db.stock|) {
      assert LineOk(lines[i], |db.stock|);
    }
    NewItemsKeep(db.stock, db.items, more);
  }

  lemma OpenedShape(db: Db, r: Id, lines: seq<Line>)
    requires ItemsOk(db.items, db.sessions, db.invoices) && StockOk(db.stock, db.items)
    requires forall i :: 0 <= i < |lines| ==> LineOk(lines[i], |db.stock|)
    requires ReservePending(Opened(db, r, lines), InSession(|db.sessions|)).Ok?
    ensures var d := ReservePending(Opened(db, r, lines), InSession(|db.sessions|)).db; var s := |db.sessions|;
            && d == db.(sessions := db.sessions + [Session(None, Active, Some(r))], items := d.items, stock := d.stock)
            && StockOk(d.stock, d.items) && |d.items| == |db.items| + |lines|
            && d.items[..|db.items|] == db.items
            && (forall i :: 0 <= i < |lines| ==> d.items[|db.items| + i] == Hold(InSession(s))(NewItem(s, lines[i])))
  {
    hide StockOk, ReservePending, ItemsOk, LineOk, NewItems, NewItem;
    var s := |db.sessions|;
    OpenedStock(db, r, lines);
    ItemsHaveSessions(db);
    var o := Opened(db, r, lines);
    ReserveEffect(o, InSession(s));
    var d := ReservePending(o, InSession(s)).db;
    forall i | 0 <= i < |db.items| ensures d.items[i] == db.items[i] {
      assert d.items[i] == Hold(InSession(s))(o.items[i]);
    }
    forall i | 0 <= i < |lines| ensures d.items[|db.items| + i] == Hold(InSession(s))(NewItem(s, lines[i])) {
      assert o.items[|db.items| + i] == NewItems(s, lines)[i];
    }
  }

  /** Sums over the old sessions and invoices do not see the lines of a new session. */
  lemma OldSums(items: seq<Item>, more: seq<Item>, sessions: seq<Session>, invoices: seq<Invoice>, k: Id, v: Id)
    requires forall i :: 0 <= i < |more| ==> more[i].session == |sessions| && more[i].invoice.None?
    ensures k < |sessions| ==> Total(items + more, LineIn(k)) == Total(items, LineIn(k))
    ensures Total(items + more, LineOf(v)) == Total(items, LineOf(v))
  {
    if k < |sessions| {
      TotalConcat(items, more, LineIn(k));
      TotalZero(more, LineIn(k));
    }
    TotalConcat(items, more, LineOf(v));
    TotalZero(more, LineOf(v));
  }

  ghost predicate OpenedLines(more: seq<Item>, lines: seq<Line>, s: Id) {
    |more| == |lines| && forall i :: 0 <= i < |lines| ==> more[i] == Hold(InSession(s))(NewItem(s, lines[i]))
  }

  lemma AcceptedInvoices(db: Db, r: Id, lines: seq<Line>, more: seq<Item>)
    requires InvoicesOk(db.invoices, db.items, db.sessions) && LinksOk(db.items) && OpenedLines(more, lines, |db.sessions|)
    ensures InvoicesOk(db.invoices, db.items + more, db.sessions + [Session(None, Active, Some(r))]) && LinksOk(db.items + more)
  {
    NewLinesStay(db.invoices, db.items, more, db.sessions);
    hide LinksOk;
    var sessions := db.sessions + [Session(None, Active, Some(r))];
    forall v | 0 <= v < |db.invoices| ensures InvoiceOk(v, db.invoices[v], db.items + more, sessions) {
      assert InvoiceOk(v, db.invoices[v], db.items + more, db.sessions);
    }
  }

  lemma AcceptedRequests(db: Db, r: Id)
    requires RequestsOk(db.requests, db.sessions) && r < |db.requests| && db.requests[r].status == RequestPending
    ensures RequestsOk(db.requests[r := db.requests[r].(status := Accepted, session := Some(|db.sessions|))],
                       db.sessions + [Session(None, Active, Some(r))])
  {
    var requests := db.requests[r := db.requests[r].(status := Accepted, session := Some(|db.sessions|))];
    var sessions := db.sessions + [Session(None, Active, Some(r))];
    forall k | 0 <= k < |requests| ensures RequestOk(k, requests[k], sessions) {
      assert RequestOk(k, db.requests[k], db.sessions);
    }
  }

  /** The new session is worth what the request quoted. */
  lemma AcceptedWorth(db: Db, r: Id, lines: seq<Line>, more: seq<Item>)
    requires ItemsOk(db.items, db.sessions, db.invoices) && RequestsOk(db.requests, db.sessions)
    requires r < |db.requests| && QuotesHold(db.requests[r].quotes, lines) && OpenedLines(more, lines, |db.sessions|)
    ensures Total(db.items + more, LineIn(|db.sessions|)) == db.requests[r].quotedSubtotal
  {
    var s := |db.sessions|;
    forall i | 0 <= i < |db.items| ensures LineIn(s)(db.items[i]) == 0 {
      assert ItemOk(db.items[i], db.sessions, db.invoices);
    }
    TotalZero(db.items, LineIn(s));
    TotalConcat(db.items, more, LineIn(s));
    QuotedLines(s, db.requests[r].quotes, lines, more);
    assert RequestOk(r, db.requests[r], db.sessions);
  }

  lemma AcceptedSessions(db: Db, r: Id, lines: seq<Line>, more: seq<Item>)
    requires OnlineSessionsOk(db.requests, db.sessions, db.items) && RequestsOk(db.requests, db.sessions)
    requires r < |db.requests| && db.requests[r].status == RequestPending && OpenedLines(more, lines, |db.sessions|)
    requires Total(db.items + more, LineIn(|db.sessions|)) == db.requests[r].quotedSubtotal
    ensures OnlineSessionsOk(db.requests[r := db.requests[r].(status := Accepted, session := Some(|db.sessions|))],
                             db.sessions + [Session(None, Active, Some(r))], db.items + more)
  {
    var requests := db.requests[r := db.requests[r].(status := Accepted, session := Some(|db.sessions|))];
    var sessions := db.sessions + [Session(None, Active, Some(r))];
    assert RequestOk(r, db.requests[r], db.sessions);
    forall k | 0 <= k < |sessions| ensures OnlineSessionOk(k, sessions[k], requests, db.items + more) {
      if k < |db.sessions| {
        assert OnlineSessionOk(k, db.sessions[k], db.requests, db.items);
        OldSums(db.items, more, db.sessions, db.invoices, k, 0);
      }
    }
  }

  lemma NoTableKeeps(tables: seq<Table>, sessions: seq<Session>, s: Session)
    requires FloorOk(tables, sessions) && s.table.None?
    ensures FloorOk(tables, sessions + [s])
  {
    assert forall k, t :: ActiveAt(sessions + [s], k, t) <==> ActiveAt(sessions, k, t);
    SamePlacesKeep(tables, sessions, sessions + [s]);
  }

  ghost predicate MayAccept(db: Db, r: Id, lines: seq<Line>, capacity: nat) {
    && r < |db.requests| && db.requests[r].status == RequestPending && QuotesHold(db.requests[r].quotes, lines)
    && (db.requests[r].pickupAt.Some? ==> Total(db.requests, BookedAt(db.requests[r].pickupAt.value)) < capacity)
    && forall i :: 0 <= i < |lines| ==> LineOk(lines[i], |db.stock|) && lines[i].quantity > 0
  }

  /** What an accepted request looks like. */
  lemma AcceptShape(db: Db, r: Id, lines: seq<Line>, now: int, capacity: nat)
    requires AcceptRequest(db, r, lines, now, capacity).Ok?
    ensures MayAccept(db, r, lines, capacity) && ReservePending(Opened(db, r, lines), InSession(|db.sessions|)).Ok?
    ensures AcceptRequest(db, r, lines, now, capacity).db
            == ReservePending(Opened(db, r, lines), InSession(|db.sessions|)).db.(
                 requests := db.requests[r := db.requests[r].(status := Accepted, session := Some(|db.sessions|))])
  {
  }

  /** Every part of the invariant after an acceptance. */
  lemma AcceptedParts(db: Db, r: Id, lines: seq<Line>, d: Db, capacity: nat)
    requires Inv(db, capacity) && MayAccept(db, r, lines, capacity) && ReservePending(Opened(db, r, lines), InSession(|db.sessions|)) == Ok(d)
    ensures var requests := db.requests[r := db.requests[r].(status := Accepted, session := Some(|db.sessions|))];
            Inv(d.(requests := requests), capacity)
  {
    OpenedShape(db, r, lines);
    hide ReservePending, Opened, FloorOk, StockOk, ItemsOk, LinksOk, InvoicesOk, RequestsOk, OnlineSessionsOk, WithinCapacity, QuotesHold, LineOk;
    var more := d.items[|db.items|..];
    assert d.items == db.items + more;
    OpenedItemsAreOk(db, r, lines, d);
    AcceptedInvoices(db, r, lines, more);
    AcceptedRequests(db, r);
    AcceptedWorth(db, r, lines, more);
    AcceptedSessions(db, r, lines, more);
    AcceptedSlot(db.requests, r, |db.sessions|, capacity);
    NoTableKeeps(db.tables, db.sessions, d.sessions[|db.sessions|]);
  }

  lemma AcceptRequestKeeps(db: Db, r: Id, lines: seq<Line>, now: int, capacity: nat)
    requires Inv(db, capacity)
    ensures Keeps(AcceptRequest(db, r, lines, now, capacity), capacity)
  {
    if AcceptRequest(db, r, lines, now, capacity).Ok? {
      AcceptShape(db, r, lines, now, capacity);
      hide AcceptRequest, ReservePending, Opened, Inv, MayAccept;
      AcceptedParts(db, r, lines, ReservePending(Opened(db, r, lines), InSession(|db.sessions|)).db, capacity);
    }
  }

  // ----- collection -----

  ghost predicate Collecting(db: Db, r: Id, s: Id) {
    && r < |db.requests| && db.requests[r].status == Accepted && db.requests[r].session == Some(s)
    && s < |db.sessions| && db.sessions[s].table.None? && db.sessions[s].status == Active
    && forall i :: 0 <= i < |db.items| && ItemIn(db.items[i], s) ==> Collectable(db.items[i])
  }

  /** An accepted order is still worth what was quoted, so its collection is never refused for a changed total. */
  lemma TotalIsAsQuoted(db: Db, r: Id, s: Id, capacity: nat)
    requires Inv(db, capacity) && r < |db.requests| && db.requests[r].session == Some(s)
    ensures s < |db.sessions| && db.sessions[s].request == Some(r) && Total(db.items, LineIn(s)) == db.requests[r].quotedSubtotal
    ensures db.requests[r].quotedSubtotal == QuotedTotal(db.requests[r].quotes)
  {
    assert RequestOk(r, db.requests[r], db.sessions);
    assert OnlineSessionOk(s, db.sessions[s], db.requests, db.items);
  }

  /** The invoice of a collection and the state after it, before the items are marked served. */
  function CollectedBill(db: Db, s: Id): Invoice { Bill(s, SubTotalOf(db, s), 0, 0, true) }

  function SubTotalOf(db: Db, s: Id): int {
    BillableIdsAre(db.items, s);
    SubTotal(db.items, BillableIds(db.items, s))
  }

  function Reserved(db: Db, s: Id): Outcome {
    BillableIdsAre(db.items, s);
    ReservePending(Billed(db, s, BillableIds(db.items, s), CollectedBill(db, s), true), OnInvoice(|db.invoices|))
  }

  lemma CollectShape(db: Db, r: Id, s: Id)
    requires Collecting(db, r, s) && CollectRequest(db, r).Collected? && CollectRequest(db, r).outcome.Ok?
    ensures var ids := BillableIds(db.items, s);
            && CanBill(db, s, ids) && Reserved(db, s).Ok?
            && var c := CloseIfPaid(Reserved(db, s).db, s);
               CollectRequest(db, r).outcome.db == c.(items := MapItems(c.items, ServeOn(|db.invoices|)))
  {
    CreateInvoiceShape(db, s, None, 0, 0, true, true, true);
  }

  lemma CollectedItemAt(db: Db, r: Id, s: Id, i: Id)
    requires Collecting(db, r, s) && i < |db.items| && ItemsOk(db.items, db.sessions, db.invoices)
    requires CanBill(db, s, BillableIds(db.items, s)) && Reserved(db, s).Ok?
    ensures var d := Reserved(db, s).db; var it := db.items[i];
            && |d.items| == |db.items| && d.sessions == db.sessions && d.invoices == db.invoices + [CollectedBill(db, s)]
            && d.items[i] == (if it.session == s then it.(invoice := Some(|db.invoices|), paid := true) else it)
            && it.invoice != Some(|db.invoices|)
  {
    var ids := BillableIds(db.items, s);
    BillableIdsAre(db.items, s);
    BilledItemAt(db, s, ids, CollectedBill(db, s), true, i);
    assert ItemOk(db.items[i], db.sessions, db.invoices);
    assert db.items[i].session == s ==> ItemIn(db.items[i], s);
    hide ReservePending;
  }

  lemma CollectClosesSession(db: Db, r: Id, s: Id)
    requires Collecting(db, r, s) && ItemsOk(db.items, db.sessions, db.invoices)
    requires CanBill(db, s, BillableIds(db.items, s)) && Reserved(db, s).Ok?
    ensures |Reserved(db, s).db.sessions| == |db.sessions|
    ensures CloseIfPaid(Reserved(db, s).db, s) == SetSession(Reserved(db, s).db, s, Completed)
  {
    hide ReservePending;
    var d := Reserved(db, s).db;
    ReserveKeepsSessions(Billed(db, s, BillableIds(db.items, s), CollectedBill(db, s), true), OnInvoice(|db.invoices|));
    forall i | 0 <= i < |d.items| && ItemIn(d.items[i], s) ensures d.items[i].paid {
      ReservedLength(db, r, s);
      CollectedItemAt(db, r, s, i);
    }
  }

  lemma ReservedLength(db: Db, r: Id, s: Id)
    requires CanBill(db, s, BillableIds(db.items, s)) && Reserved(db, s).Ok?
    ensures |Reserved(db, s).db.items| == |db.items|
  {
  }

  lemma CollectedItemsAreOk(db: Db, r: Id, s: Id, d: Db)
    requires Collecting(db, r, s) && ItemsOk(db.items, db.sessions, db.invoices) && |d.items| == |db.items|
    requires d.sessions == db.sessions[s := db.sessions[s].(status := Completed)] && d.invoices == db.invoices + [CollectedBill(db, s)]
    requires forall i :: 0 <= i < |db.items| ==> d.items[i] == CollectedItem(db.items[i], s, |db.invoices|)
    ensures ItemsOk(d.items, d.sessions, d.invoices)
  {
    forall i | 0 <= i < |db.items| ensures ItemOk(d.items[i], d.sessions, d.invoices) {
      assert ItemOk(db.items[i], db.sessions, db.invoices);
      assert db.items[i].session == s ==> ItemIn(db.items[i], s);
    }
  }

  function CollectedItem(it: Item, s: Id, v: Id): Item {
    if it.session == s then it.(invoice := Some(v), paid := true, status := Served) else it
  }

  lemma CollectedItems(db: Db, r: Id, s: Id)
    requires Collecting(db, r, s) && CollectRequest(db, r).Collected? && CollectRequest(db, r).outcome.Ok?
    requires ItemsOk(db.items, db.sessions, db.invoices)
    ensures var d := CollectRequest(db, r).outcome.db;
            && d == db.(items := d.items, stock := d.stock, invoices := db.invoices + [CollectedBill(db, s)],
                        sessions := db.sessions[s := db.sessions[s].(status := Completed)])
            && |d.items| == |db.items| && forall i :: 0 <= i < |db.items| ==> d.items[i] == CollectedItem(db.items[i], s, |db.invoices|)
  {
    CollectShape(db, r, s);
    CollectClosesSession(db, r, s);
    ReservedLength(db, r, s);
    hide CollectRequest, ReservePending, CanBill;
    var d := CollectRequest(db, r).outcome.db;
    forall i | 0 <= i < |db.items| ensures d.items[i] == CollectedItem(db.items[i], s, |db.invoices|) {
      CollectedItemAt(db, r, s, i);
      assert db.items[i].session == s ==> ItemIn(db.items[i], s);
    }
    ReservedRest(db, s);
  }

  lemma ReservedRest(db: Db, s: Id)
    requires Reserved(db, s).Ok?
    ensures var d := Reserved(db, s).db;
            d == db.(items := d.items, stock := d.stock, invoices := db.invoices + [CollectedBill(db, s)])
  {
    BillableIdsAre(db.items, s);
  }

  lemma CollectedStock(db: Db, r: Id, s: Id)
    requires Collecting(db, r, s) && CollectRequest(db, r).Collected? && CollectRequest(db, r).outcome.Ok?
    requires ItemsOk(db.items, db.sessions, db.invoices) && StockOk(db.stock, db.items)
    ensures var d := CollectRequest(db, r).outcome.db; StockOk(d.stock, d.items)
  {
    hide CollectRequest, ReservePending;
    CollectShape(db, r, s);
    CollectClosesSession(db, r, s);
    var ids := BillableIds(db.items, s);
    var b := Billed(db, s, ids, CollectedBill(db, s), true);
    forall i | 0 <= i < |db.items| ensures SameStock(db.items[i], b.items[i]) {
      LinkAllAt(db.items, ids, |db.invoices|, true, i);
    }
    SameStockKeeps(db.stock, db.items, b.items);
    ReserveEffect(b, OnInvoice(|db.invoices|));
    var d := CollectRequest(db, r).outcome.db;
    hide StockOk;
    SameStockKeeps(d.stock, Reserved(db, s).db.items, d.items);
  }

  lemma CollectedInvoices(db: Db, r: Id, s: Id, d: Db)
    requires Collecting(db, r, s) && ItemsOk(db.items, db.sessions, db.invoices) && InvoicesOk(db.invoices, db.items, db.sessions)
    requires CanBill(db, s, BillableIds(db.items, s)) && |d.items| == |db.items|
    requires d.invoices == db.invoices + [CollectedBill(db, s)] && |d.sessions| == |db.sessions|
    requires forall k :: 0 <= k < |db.sessions| ==> d.sessions[k].request == db.sessions[k].request
    requires forall i :: 0 <= i < |db.items| ==> d.items[i] == CollectedItem(db.items[i], s, |db.invoices|)
    ensures InvoicesOk(d.invoices, d.items, d.sessions)
  {
    var ids := BillableIds(db.items, s);
    BilledBooks(db, s, ids, 0, 0, true);
    CollectedLines(db, r, s, d);
    hide ItemsOk, Collecting, CanBill, InvoicesOk, LinkAll, SubTotal;
    LinesStay(d.invoices, Billed(db, s, ids, CollectedBill(db, s), true).items, d.items, db.sessions);
    CollectedInvoicesMove(d, db.sessions);
  }

  lemma CollectedInvoicesMove(d: Db, before: seq<Session>)
    requires InvoicesOk(d.invoices, d.items, before) && |d.sessions| == |before|
    requires forall k :: 0 <= k < |before| ==> d.sessions[k].request == before[k].request
    ensures InvoicesOk(d.invoices, d.items, d.sessions)
  {
    forall v | 0 <= v < |d.invoices| ensures InvoiceOk(v, d.invoices[v], d.items, d.sessions) {
      assert InvoiceOk(v, d.invoices[v], d.items, before);
    }
  }

  /** The lines of the collected state are those of the billed one. */
  lemma CollectedLines(db: Db, r: Id, s: Id, d: Db)
    requires Collecting(db, r, s) && CanBill(db, s, BillableIds(db.items, s)) && |d.items| == |db.items|
    requires forall i :: 0 <= i < |db.items| ==> d.items[i] == CollectedItem(db.items[i], s, |db.invoices|)
    ensures var b := Billed(db, s, BillableIds(db.items, s), CollectedBill(db, s), true);
            |b.items| == |d.items| && forall i :: 0 <= i < |d.items| ==> SameLine(b.items[i], d.items[i])
  {
    var ids := BillableIds(db.items, s);
    BillableIdsAre(db.items, s);
    hide BillableIds;
    var b := Billed(db, s, ids, CollectedBill(db, s), true);
    forall i | 0 <= i < |db.items| ensures SameLine(b.items[i], d.items[i]) {
      LinkAllAt(db.items, ids, |db.invoices|, true, i);
      assert db.items[i].session == s ==> ItemIn(db.items[i], s);
    }
  }

  lemma CollectedRequests(db: Db, r: Id, s: Id, after: seq<Item>)
    requires Collecting(db, r, s) && RequestsOk(db.requests, db.sessions) && OnlineSessionsOk(db.requests, db.sessions, db.items)
    requires |after| == |db.items| && forall i :: 0 <= i < |after| ==> SameWorth(db.items[i], after[i])
    ensures var sessions := db.sessions[s := db.sessions[s].(status := Completed)];
            RequestsOk(db.requests, sessions) && OnlineSessionsOk(db.requests, sessions, after)
  {
    var sessions := db.sessions[s := db.sessions[s].(status := Completed)];
    forall k | 0 <= k < |db.requests| ensures RequestOk(k, db.requests[k], sessions) {
      assert RequestOk(k, db.requests[k], db.sessions);
    }
    forall k | 0 <= k < |sessions| ensures OnlineSessionOk(k, sessions[k], db.requests, after) {
      assert OnlineSessionOk(k, db.sessions[k], db.requests, db.items);
      TotalsAgree(db.items, after, LineIn(k), LineIn(k));
    }
  }

  lemma UnseatedKeeps(tables: seq<Table>, sessions: seq<Session>, s: Id, status: SessionStatus)
    requires FloorOk(tables, sessions) && s < |sessions| && sessions[s].table.None?
    ensures FloorOk(tables, sessions[s := sessions[s].(status := status)])
  {
    assert SamePlaces(sessions, sessions[s := sessions[s].(status := status)]);
    SamePlacesKeep(tables, sessions, sessions[s := sessions[s].(status := status)]);
  }

  lemma CollectingHolds(db: Db, r: Id)
    requires CollectRequest(db, r).Collected?
    ensures db.requests[r].session.Some? && Collecting(db, r, db.requests[r].session.value)
  {
  }

  lemma CollectKeeps(db: Db, r: Id, capacity: nat)
    requires Inv(db, capacity) && CollectRequest(db, r).Collected?
    ensures Keeps(CollectRequest(db, r).outcome, capacity)
  {
    if CollectRequest(db, r).outcome.Ok? {
      CollectingHolds(db, r);
      var s := db.requests[r].session.value;
      CollectShape(db, r, s);
      CollectedItems(db, r, s);
      CollectedStock(db, r, s);
      var d := CollectRequest(db, r).outcome.db;
      hide CollectRequest, ReservePending, Collecting, CanBill, FloorOk, StockOk, ItemsOk, LinksOk, InvoicesOk, RequestsOk, OnlineSessionsOk, WithinCapacity;
      CollectedItemsAreOk(db, r, s, d);
      CollectedInvoices(db, r, s, d);
      CollectedRequests(db, r, s, d.items);
      LinksStay(db.items, d.items);
      CollectingSession(db, r, s);
      UnseatedKeeps(db.tables, db.sessions, s, Completed);
    }
  }

  lemma CollectingSession(db: Db, r: Id, s: Id)
    requires Collecting(db, r, s)
    ensures s < |db.sessions| && db.sessions[s].table.None?
  {
  }

  // ----- cancellation -----

  lemma StartedItemsReady(db: Db, r: Id, s: Id)
    requires ItemsOk(db.items, db.sessions, db.invoices) && s < |db.sessions| && db.sessions[s].status == Active && db.sessions[s].request == Some(r)
    requires forall i :: 0 <= i < |db.items| && ItemIn(db.items[i], s) ==> db.items[i].status != Served
    ensures var items := MapItems(db.items, WasteStarted(s));
            forall i :: 0 <= i < |items| ==>
              if items[i].session == s then ReadyToCancel(items[i], db.sessions, db.invoices) else ItemOk(items[i], db.sessions, db.invoices)
  {
    var items := MapItems(db.items, WasteStarted(s));
    forall i | 0 <= i < |items|
      ensures if items[i].session == s then ReadyToCancel(items[i], db.sessions, db.invoices) else ItemOk(items[i], db.sessions, db.invoices)
    {
      assert ItemOk(db.items[i], db.sessions, db.invoices);
      assert db.items[i].session == s ==> ItemIn(db.items[i], s);
    }
  }

  lemma CancelledRequests(db: Db, r: Id, s: Id)
    requires RequestsOk(db.requests, db.sessions) && OnlineSessionsOk(db.requests, db.sessions, db.items)
    requires r < |db.requests| && db.requests[r].status == Accepted && db.requests[r].session == Some(s) && s < |db.sessions|
    ensures var sessions := db.sessions[s := db.sessions[s].(status := SessionCancelled)];
            var requests := db.requests[r := db.requests[r].(status := RequestCancelled)];
            RequestsOk(requests, sessions) && OnlineSessionsOk(requests, sessions, db.items)
  {
    var sessions := db.sessions[s := db.sessions[s].(status := SessionCancelled)];
    var requests := db.requests[r := db.requests[r].(status := RequestCancelled)];
    assert RequestOk(r, db.requests[r], db.sessions);
    forall k | 0 <= k < |requests| ensures RequestOk(k, requests[k], sessions) {
      assert RequestOk(k, db.requests[k], db.sessions);
    }
    forall k | 0 <= k < |sessions| ensures OnlineSessionOk(k, sessions[k], requests, db.items) {
      assert OnlineSessionOk(k, db.sessions[k], db.requests, db.items);
    }
  }

  lemma CancelledBooks(db: Db, s: Id, capacity: nat)
    requires Inv(db, capacity) && s < |db.sessions| && CallOff(db.(items := MapItems(db.items, WasteStarted(s))), s).Ok?
    ensures var d := CallOff(db.(items := MapItems(db.items, WasteStarted(s))), s).db;
            && d == db.(items := d.items, stock := d.stock, sessions := db.sessions[s := db.sessions[s].(status := SessionCancelled)])
            && |d.items| == |db.items| && LinksOk(d.items) && InvoicesOk(db.invoices, d.items, db.sessions)
            && OnlineSessionsOk(db.requests, db.sessions, d.items)
  {
    var w := db.(items := MapItems(db.items, WasteStarted(s)));
    var d := CallOff(w, s).db;
    forall i | 0 <= i < |db.items| ensures |d.items| == |db.items| && SameBooks(db.items[i], d.items[i]) {
      CallOffEffect(w, s, i);
    }
    assert |d.items| == |db.items|;
    BooksStay(db, d.items, capacity);
  }

  lemma CancelRequestKeeps(db: Db, r: Id, capacity: nat)
    requires Inv(db, capacity)
    ensures Keeps(CancelRequest(db, r), capacity)
  {
    var o := CancelRequest(db, r);
    if o.Ok? {
      var s := db.requests[r].session.value;
      TotalIsAsQuoted(db, r, s, capacity);
      StartedItemsReady(db, r, s);
      var w := db.(items := MapItems(db.items, WasteStarted(s)));
      SameStockKeeps(db.stock, db.items, w.items);
      CallOffStock(w, s);
      CallOffItems(w, s);
      CancelledBooks(db, s, capacity);
      FreedSlot(db.requests, r, db.requests[r].(status := RequestCancelled), capacity);
      var d := CallOff(w, s).db;
      hide CancelRequest, CallOff, FloorOk, StockOk, ItemsOk, LinksOk, RequestsOk, OnlineSessionsOk, WithinCapacity;
      assert InvoicesOk(d.invoices, d.items, d.sessions) by {
        forall v | 0 <= v < |d.invoices| ensures InvoiceOk(v, d.invoices[v], d.items, d.sessions) {
          assert InvoiceOk(v, d.invoices[v], d.items, db.sessions);
        }
      }
      CancelledRequests(db.(items := d.items), r, s);
      UnseatedKeeps(db.tables, db.sessions, s, SessionCancelled);
      CancelRequestShape(db, r);
    }
  }

  lemma CancelRequestShape(db: Db, r: Id)
    requires CancelRequest(db, r).Ok?
    ensures var s := db.requests[r].session.value; var c := CallOff(db.(items := MapItems(db.items, WasteStarted(s))), s);
            c.Ok? && CancelRequest(db, r).db == c.db.(requests := db.requests[r := db.requests[r].(status := RequestCancelled)])
  {
  }
}

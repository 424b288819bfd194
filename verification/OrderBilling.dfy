/** Invoices, remakes and online orders keep the invariant. */
module OrderBilling {
  import opened Sums
  import opened OrderTables
  import opened OrderStock
  import opened OrderItems
  import opened OrderFloor
  import opened OrderSteps

  /** The tax is the nearest hundredth, half up; a discount beyond the subtotal leaves nothing to pay. */
  lemma TaxIsNearest(s: Id, subTotal: int, discount: nat, rate: nat, paid: bool)
    ensures var b := Bill(s, subTotal, discount, rate, paid); var exact := Taxable(subTotal, discount) * rate;
            && -5_000 <= exact - 10_000 * b.tax < 5_000
            && b.total >= b.tax >= 0 && (subTotal <= discount ==> b.total == 0)
            && (subTotal > discount ==> b.total - b.tax == subTotal - discount)
  {
  }

  // ----- the items of an invoice -----

  lemma {:induction false} LinkAllAt(items: seq<Item>, ids: seq<Id>, v: Id, paid: bool, i: Id)
    requires i < |items| && Distinct(ids) && forall k :: 0 <= k < |ids| ==> ids[k] < |items|
    ensures LinkAll(items, ids, v, paid)[i] == if i in ids then items[i].(invoice := Some(v), paid := items[i].paid || paid) else items[i]
  {
    if ids != [] {
      LinkAllAt(items, ids[..|ids| - 1], v, paid, i);
      assert ids == ids[..|ids| - 1] + [ids[|ids| - 1]];
    }
  }

  /** The subtotal, summed over the chosen items, is what the linked items are worth. */
  lemma {:induction false} LinkAllTotal(items: seq<Item>, ids: seq<Id>, v: Id, paid: bool)
    requires Distinct(ids) && (forall k :: 0 <= k < |ids| ==> ids[k] < |items|)
    requires forall i :: 0 <= i < |items| ==> items[i].invoice != Some(v)
    ensures Total(LinkAll(items, ids, v, paid), LineOf(v)) == SubTotal(items, ids)
  {
    if ids == [] {
      TotalZero(items, LineOf(v));
    } else {
      var n := |ids| - 1;
      LinkAllTotal(items, ids[..n], v, paid);
      var before := LinkAll(items, ids[..n], v, paid);
      LinkAllAt(items, ids[..n], v, paid, ids[n]);
      TotalUpdate(before, ids[n], before[ids[n]].(invoice := Some(v), paid := before[ids[n]].paid || paid), LineOf(v));
    }
  }

  /** Every billable item of the session is on the list, once, and nothing else is. */
  lemma {:induction false} BillableIdsAre(items: seq<Item>, s: Id)
    ensures Distinct(BillableIds(items, s)) && AllIn(items, s, BillableIds(items, s))
    ensures forall i: nat :: i in BillableIds(items, s) <==> i < |items| && items[i].session == s && Billable(items[i])
  {
    if items != [] {
      BillableIdsAre(items[..|items| - 1], s);
    }
  }

  lemma ReserveEffect(db: Db, sel: Item -> bool)
    requires StockOk(db.stock, db.items) && ReservePending(db, sel).Ok?
    ensures var d := ReservePending(db, sel).db;
            && d == db.(items := d.items, stock := d.stock) && StockOk(d.stock, d.items) && |d.items| == |db.items|
            && forall i :: 0 <= i < |d.items| ==> d.items[i] == Hold(sel)(db.items[i])
  {
    ReserveKeeps(db, sel);
    hide StockOk;
  }

  /** The state after the items are linked and before stock is reserved. */
  function Billed(db: Db, s: Id, ids: seq<Id>, bill: Invoice, paid: bool): Db
    requires forall k :: 0 <= k < |ids| ==> ids[k] < |db.items|
  {
    db.(invoices := db.invoices + [bill], items := LinkAll(db.items, ids, |db.invoices|, paid))
  }

  ghost predicate CanBill(db: Db, s: Id, ids: seq<Id>) {
    s < |db.sessions| && Distinct(ids) && AllIn(db.items, s, ids) && AllBillable(db.items, ids)
  }

  lemma BilledBooks(db: Db, s: Id, ids: seq<Id>, discount: nat, rate: nat, paid: bool)
    requires InvoicesOk(db.invoices, db.items, db.sessions) && ItemsOk(db.items, db.sessions, db.invoices) && CanBill(db, s, ids)
    requires paid || db.sessions[s].request.None?
    ensures var d := Billed(db, s, ids, Bill(s, SubTotal(db.items, ids), discount, rate, paid), paid);
            InvoicesOk(d.invoices, d.items, db.sessions)
  {
    var v := |db.invoices|;
    var d := Billed(db, s, ids, Bill(s, SubTotal(db.items, ids), discount, rate, paid), paid);
    forall i | 0 <= i < |db.items| ensures db.items[i].invoice != Some(v) {
      assert ItemOk(db.items[i], db.sessions, db.invoices);
    }
    LinkAllTotal(db.items, ids, v, paid);
    hide ItemsOk;
    forall u | 0 <= u < |d.invoices| ensures InvoiceOk(u, d.invoices[u], d.items, db.sessions) {
      if u < v {
        assert InvoiceOk(u, db.invoices[u], db.items, db.sessions);
        forall i | 0 <= i < |db.items| ensures LineOf(u)(db.items[i]) == LineOf(u)(d.items[i]) {
          LinkAllAt(db.items, ids, v, paid, i);
          if i in ids {
            assert Billable(db.items[i]);
          }
        }
        TotalsAgree(db.items, d.items, LineOf(u), LineOf(u));
      }
    }
  }

  /** An item that has just been put on an invoice, wherever its session then stands. */
  lemma BilledItemIsOk(it: Item, v: Id, paid: bool, held: map<Id, nat>, sessions: seq<Session>, invoices: seq<Invoice>, after: seq<Session>, bills: seq<Invoice>)
    requires ItemOk(it, sessions, invoices) && Billable(it) && v == |invoices| && |bills| == v + 1 && bills[..v] == invoices
    requires bills[v].session == it.session && bills[v].status == (if paid then Paid else Unpaid)
    requires held == map[] || (it.status == Pending && (held == it.held || held == Need(it)))
    requires |after| == |sessions| && after[it.session].status != SessionCancelled
    requires after[it.session].status == Completed ==> paid
    requires after[it.session].status == Active ==> after[it.session].request.None?
    ensures ItemOk(it.(invoice := Some(v), paid := paid, held := held), after, bills)
  {
  }

  lemma OtherItemIsOk(it: Item, sessions: seq<Session>, invoices: seq<Invoice>, after: seq<Session>, bills: seq<Invoice>)
    requires ItemOk(it, sessions, invoices) && |bills| == |invoices| + 1 && bills[..|invoices|] == invoices && |after| == |sessions|
    requires after[it.session] == sessions[it.session]
             || (after[it.session] == sessions[it.session].(status := Completed) && sessions[it.session].status == Active
                 && (it.status == Cancelled || it.paid))
    ensures ItemOk(it, after, bills)
  {
  }

  lemma BilledItemAt(db: Db, s: Id, ids: seq<Id>, bill: Invoice, paid: bool, i: Id)
    requires CanBill(db, s, ids) && i < |db.items| && ItemsOk(db.items, db.sessions, db.invoices)
    requires ReservePending(Billed(db, s, ids, bill, paid), OnInvoice(|db.invoices|)).Ok?
    ensures var it := db.items[i]; var d := ReservePending(Billed(db, s, ids, bill, paid), OnInvoice(|db.invoices|)).db;
            && |d.items| == |db.items| && d.invoices == db.invoices + [bill] && d.sessions == db.sessions
            && d.items[i] == if i in ids
                             then it.(invoice := Some(|db.invoices|), paid := paid, held := if it.status == Pending && it.held == map[] then Need(it) else it.held)
                             else it
  {
    LinkAllAt(db.items, ids, |db.invoices|, paid, i);
    assert ItemOk(db.items[i], db.sessions, db.invoices);
    if i in ids {
      assert Billable(db.items[i]);
    }
  }

  lemma CloseIfPaidKeeps(db: Db, s: Id, capacity: nat)
    requires Inv(db, capacity) && s < |db.sessions| && db.sessions[s].request.None?
    ensures Inv(CloseIfPaid(db, s), capacity)
  {
    var d := CloseIfPaid(db, s);
    if d != db {
      SessionStatusStays(db, s, Completed, capacity);
      assert SamePlaces(db.sessions, d.sessions);
      SamePlacesKeep(db.tables, db.sessions, d.sessions);
      forall i | 0 <= i < |db.items| ensures ItemOk(db.items[i], d.sessions, db.invoices) {
        assert ItemOk(db.items[i], db.sessions, db.invoices) && (db.items[i].session == s ==> ItemIn(db.items[i], s));
      }
      hide FloorOk, StockOk, LinksOk, InvoicesOk, RequestsOk, OnlineSessionsOk, WithinCapacity;
    }
  }

  /** The invoice of a session that is not an online order, before the session is closed. */
  lemma BilledKeeps(db: Db, s: Id, ids: seq<Id>, discount: nat, rate: nat, paid: bool, capacity: nat)
    requires Inv(db, capacity) && CanBill(db, s, ids) && db.sessions[s].status == Active && db.sessions[s].request.None?
    ensures var d := Billed(db, s, ids, Bill(s, SubTotal(db.items, ids), discount, rate, paid), paid);
            Keeps(ReservePending(d, OnInvoice(|db.invoices|)), capacity)
  {
    var v := |db.invoices|;
    var bill := Bill(s, SubTotal(db.items, ids), discount, rate, paid);
    var d := Billed(db, s, ids, bill, paid);
    var r := ReservePending(d, OnInvoice(v));
    if r.Ok? {
      forall i | 0 <= i < |db.items|
        ensures SameStock(db.items[i], d.items[i]) && |r.db.items| == |db.items| && SameWorth(db.items[i], r.db.items[i]) && SameLinks(db.items[i], r.db.items[i])
        ensures ItemOk(r.db.items[i], db.sessions, d.invoices)
      {
        LinkAllAt(db.items, ids, v, paid, i);
        BilledItemAt(db, s, ids, bill, paid, i);
        assert ItemOk(db.items[i], db.sessions, db.invoices);
        if i in ids {
          BilledItemIsOk(db.items[i], v, paid, r.db.items[i].held, db.sessions, db.invoices, db.sessions, d.invoices);
        } else {
          OtherItemIsOk(db.items[i], db.sessions, db.invoices, db.sessions, d.invoices);
        }
      }
      SameStockKeeps(db.stock, db.items, d.items);
      ReserveEffect(d, OnInvoice(v));
      BilledBooks(db, s, ids, discount, rate, paid);
      LinesStay(d.invoices, d.items, r.db.items, db.sessions);
      LinksStay(db.items, r.db.items);
      WorthStays(db, r.db.items, capacity);
      hide FloorOk, StockOk, ItemsOk, LinksOk, InvoicesOk, RequestsOk, OnlineSessionsOk, WithinCapacity;
    }
  }

  lemma WorthStays(db: Db, after: seq<Item>, capacity: nat)
    requires Inv(db, capacity) && |after| == |db.items| && forall i :: 0 <= i < |after| ==> SameWorth(db.items[i], after[i])
    ensures OnlineSessionsOk(db.requests, db.sessions, after)
  {
    hide FloorOk, StockOk, ItemsOk, RequestsOk, WithinCapacity, InvoicesOk, LinksOk;
    forall s | 0 <= s < |db.sessions| ensures OnlineSessionOk(s, db.sessions[s], db.requests, after) {
      assert OnlineSessionOk(s, db.sessions[s], db.requests, db.items);
      TotalsAgree(db.items, after, LineIn(s), LineIn(s));
    }
  }

  /** What an invoice that was created looks like. */
  lemma CreateInvoiceShape(db: Db, s: Id, chosen: Option<seq<Id>>, discount: nat, rate: nat, paid: bool, closing: bool, onlinePickup: bool)
    requires CreateInvoice(db, s, chosen, discount, rate, paid, closing, onlinePickup).Ok?
    ensures var ids := ChosenIds(db, s, chosen);
            && CanBill(db, s, ids) && db.sessions[s].status == Active && (!onlinePickup ==> db.sessions[s].request.None?)
            && var r := ReservePending(Billed(db, s, ids, Bill(s, SubTotal(db.items, ids), discount, rate, paid), paid), OnInvoice(|db.invoices|));
               r.Ok? && |r.db.sessions| == |db.sessions|
               && CreateInvoice(db, s, chosen, discount, rate, paid, closing, onlinePickup) == Ok(if paid && closing then CloseIfPaid(r.db, s) else r.db)
  {
  }

  lemma CloseBilledKeeps(db: Db, s: Id, ids: seq<Id>, bill: Invoice, capacity: nat)
    requires CanBill(db, s, ids) && db.sessions[s].request.None?
    requires var r := ReservePending(Billed(db, s, ids, bill, true), OnInvoice(|db.invoices|)); r.Ok? && Inv(r.db, capacity)
    ensures var r := ReservePending(Billed(db, s, ids, bill, true), OnInvoice(|db.invoices|));
            |r.db.sessions| == |db.sessions| && Inv(CloseIfPaid(r.db, s), capacity)
  {
    hide Inv, CloseIfPaid;
    CloseIfPaidKeeps(ReservePending(Billed(db, s, ids, bill, true), OnInvoice(|db.invoices|)).db, s, capacity);
  }

  lemma CreateInvoiceKeeps(db: Db, s: Id, chosen: Option<seq<Id>>, discount: nat, rate: nat, paid: bool, closing: bool, capacity: nat)
    requires Inv(db, capacity)
    ensures Keeps(CreateInvoice(db, s, chosen, discount, rate, paid, closing, false), capacity)
  {
    hide Inv, ReservePending, CreateInvoice, CloseIfPaid, ChosenIds, Billed;
    if CreateInvoice(db, s, chosen, discount, rate, paid, closing, false).Ok? {
      CreateInvoiceShape(db, s, chosen, discount, rate, paid, closing, false);
      var ids := ChosenIds(db, s, chosen);
      BilledKeeps(db, s, ids, discount, rate, paid, capacity);
      if paid && closing {
        CloseBilledKeeps(db, s, ids, Bill(s, SubTotal(db.items, ids), discount, rate, paid), capacity);
      }
    }
  }

  lemma ReserveKeepsSessions(d: Db, sel: Item -> bool)
    requires ReservePending(d, sel).Ok?
    ensures ReservePending(d, sel).db.sessions == d.sessions && ReservePending(d, sel).db.invoices == d.invoices
  {
  }

  // ----- paying, voiding, refunding -----

  lemma MarkPaidKeeps(db: Db, v: Id, capacity: nat)
    requires Inv(db, capacity) && v < |db.invoices| && db.invoices[v].status == Unpaid
    ensures Inv(MarkPaid(db, v), capacity)
  {
    var d := MarkPaid(db, v);
    forall i | 0 <= i < |db.items| ensures ItemOk(d.items[i], d.sessions, d.invoices) {
      assert ItemOk(db.items[i], db.sessions, db.invoices);
    }
    SameStockKeeps(db.stock, db.items, d.items);
    BooksStay(db, d.items, capacity);
    forall u | 0 <= u < |d.invoices| ensures InvoiceOk(u, d.invoices[u], d.items, d.sessions) {
      assert InvoiceOk(u, db.invoices[u], d.items, db.sessions);
    }
    hide FloorOk, StockOk, LinksOk, RequestsOk, OnlineSessionsOk, WithinCapacity;
  }

  lemma ReservePendingKeeps(db: Db, v: Id, capacity: nat)
    requires Inv(db, capacity)
    ensures Keeps(ReservePending(db, OnInvoice(v)), capacity)
  {
    var r := ReservePending(db, OnInvoice(v));
    if r.Ok? {
      ReserveEffect(db, OnInvoice(v));
      forall i | 0 <= i < |db.items| ensures SameBooks(db.items[i], r.db.items[i]) && ItemOk(r.db.items[i], db.sessions, db.invoices) {
        assert ItemOk(db.items[i], db.sessions, db.invoices);
      }
      hide StockOk, ReservePending;
      ItemsStepKeeps(db, r.db, capacity);
    }
  }

  lemma PayInvoiceKeeps(db: Db, v: Id, closing: bool, capacity: nat)
    requires Inv(db, capacity)
    ensures Keeps(PayInvoice(db, v, closing), capacity) && Keeps(PayOnline(db, v, closing), capacity)
  {
    if v < |db.invoices| && db.invoices[v].status == Unpaid {
      assert InvoiceOk(v, db.invoices[v], db.items, db.sessions);
      hide Inv, ReservePending, CloseIfPaid;
      MarkPaidKeeps(db, v, capacity);
      var d := MarkPaid(db, v);
      ReservePendingKeeps(d, v, capacity);
      CloseIfPaidKeeps(d, db.invoices[v].session, capacity);
      var r := ReservePending(d, OnInvoice(v));
      if r.Ok? {
        ReserveKeepsSessions(d, OnInvoice(v));
        CloseIfPaidKeeps(r.db, db.invoices[v].session, capacity);
      }
    }
  }

  predicate OnlyUnlinked(it: Item, after: Item, v: Id) {
    SameWorth(it, after) && SameLinks(it, after) && (after.invoice == it.invoice || (it.invoice == Some(v) && after.invoice == None))
  }

  lemma UnlinkedTotals(items: seq<Item>, after: seq<Item>, v: Id, u: Id)
    requires u != v && |after| == |items|
    requires forall i :: 0 <= i < |items| ==> OnlyUnlinked(items[i], after[i], v)
    ensures Total(after, LineOf(u)) == Total(items, LineOf(u))
  {
    TotalsAgree(after, items, LineOf(u), LineOf(u));
  }

  lemma VoidedItemIsOk(it: Item, held: map<Id, nat>, v: Id, db: Db)
    requires v < |db.invoices| && db.invoices[v].status == Unpaid && db.invoices[v].session < |db.sessions|
    requires db.sessions[db.invoices[v].session].request.None? && ItemOk(it, db.sessions, db.invoices)
    requires if it.invoice == Some(v) && it.status == Pending then held == map[] else held == it.held
    ensures ItemOk(Unlink(v)(it.(held := held)), db.sessions, db.invoices[v := db.invoices[v].(status := Voided)])
  {
  }

  lemma VoidedItems(db: Db, v: Id)
    requires v < |db.invoices| && db.invoices[v].status == Unpaid && db.invoices[v].session < |db.sessions|
    requires db.sessions[db.invoices[v].session].request.None? && ItemsOk(db.items, db.sessions, db.invoices)
    requires VoidInvoice(db, v).Ok?
    ensures var d := VoidInvoice(db, v).db;
            && |d.items| == |db.items| && ItemsOk(d.items, d.sessions, d.invoices)
            && forall i :: 0 <= i < |db.items| ==> OnlyUnlinked(db.items[i], d.items[i], v)
  {
    var r := Release(db, PendingOn(v)).db;
    var d := VoidInvoice(db, v).db;
    forall i | 0 <= i < |db.items| ensures ItemOk(d.items[i], d.sessions, d.invoices) {
      assert ItemOk(db.items[i], db.sessions, db.invoices);
      VoidedItemIsOk(db.items[i], r.items[i].held, v, db);
    }
  }

  lemma VoidedStock(db: Db, v: Id)
    requires StockOk(db.stock, db.items) && VoidInvoice(db, v).Ok?
    ensures var d := VoidInvoice(db, v).db; StockOk(d.stock, d.items)
  {
    ReleaseEffect(db, PendingOn(v));
    var r := if db.sessions[db.invoices[v].session].request.None? then Release(db, PendingOn(v)).db else db;
    SameStockKeeps(r.stock, r.items, VoidInvoice(db, v).db.items);
  }

  lemma VoidedInvoices(db: Db, v: Id, after: seq<Item>)
    requires InvoicesOk(db.invoices, db.items, db.sessions) && v < |db.invoices| && |after| == |db.items|
    requires forall i :: 0 <= i < |db.items| ==> OnlyUnlinked(db.items[i], after[i], v)
    ensures InvoicesOk(db.invoices[v := db.invoices[v].(status := Voided)], after, db.sessions)
  {
    var invoices := db.invoices[v := db.invoices[v].(status := Voided)];
    forall u | 0 <= u < |invoices| ensures InvoiceOk(u, invoices[u], after, db.sessions) {
      assert InvoiceOk(u, db.invoices[u], db.items, db.sessions);
      if u != v {
        UnlinkedTotals(db.items, after, v, u);
      }
    }
  }

  lemma VoidInvoiceKeeps(db: Db, v: Id, capacity: nat)
    requires Inv(db, capacity)
    ensures Keeps(VoidInvoice(db, v), capacity)
  {
    var o := VoidInvoice(db, v);
    if o.Ok? {
      assert InvoiceOk(v, db.invoices[v], db.items, db.sessions);
      VoidedItems(db, v);
      VoidedStock(db, v);
      LinksStay(db.items, o.db.items);
      WorthStays(db, o.db.items, capacity);
      VoidedInvoices(db, v, o.db.items);
      hide FloorOk, StockOk, ItemsOk, LinksOk, InvoicesOk, RequestsOk, OnlineSessionsOk, WithinCapacity;
    }
  }

  lemma RefundInvoiceKeeps(db: Db, v: Id, all: bool, capacity: nat)
    requires Inv(db, capacity)
    ensures Keeps(RefundInvoice(db, v, all), capacity)
  {
    var o := RefundInvoice(db, v, all);
    if o.Ok? {
      var d := o.db;
      forall i | 0 <= i < |db.items| ensures ItemOk(d.items[i], d.sessions, d.invoices) {
        assert ItemOk(db.items[i], db.sessions, db.invoices);
      }
      forall u | 0 <= u < |d.invoices| ensures InvoiceOk(u, d.invoices[u], d.items, d.sessions) {
        assert InvoiceOk(u, db.invoices[u], db.items, db.sessions);
      }
      hide FloorOk, StockOk, LinksOk, RequestsOk, OnlineSessionsOk, WithinCapacity;
    }
  }

  // ----- remakes -----

  lemma RemadeItemsAreOk(db: Db, i: Id)
    requires ItemsOk(db.items, db.sessions, db.invoices) && i < |db.items| && RemakeItem(db, i, true).Ok?
    ensures ItemsOk(RemakeItem(db, i, true).db.items, db.sessions, db.invoices)
  {
    assert ItemOk(db.items[i], db.sessions, db.invoices);
    var items := RemakeItem(db, i, true).db.items;
    forall k | 0 <= k < |items| ensures ItemOk(items[k], db.sessions, db.invoices) {
      if k < |db.items| {
        assert ItemOk(db.items[k], db.sessions, db.invoices);
      }
    }
  }

  lemma RemadeLinksAreOk(items: seq<Item>, i: Id, marked: Item, replacement: Item)
    requires LinksOk(items) && i < |items| && items[i].remadeAs.None? && marked.remadeAs == Some(|items|) && marked.remakeOf == items[i].remakeOf
    requires replacement.remakeOf == Some(i) && replacement.remadeAs.None?
    ensures LinksOk(items[i := marked] + [replacement])
  {
    var after := items[i := marked] + [replacement];
    forall k | 0 <= k < |after| ensures LinkOk(k, after[k], after) {
      if k < |items| {
        assert LinkOk(k, items[k], items);
      }
    }
  }

  /** A replacement is worth nothing: it changes no sum over items. */
  lemma ReplacementBooks(db: Db, items: seq<Item>, replacement: Item)
    requires InvoicesOk(db.invoices, items, db.sessions) && OnlineSessionsOk(db.requests, db.sessions, items)
    requires replacement.invoice.None? && replacement.price == 0
    ensures InvoicesOk(db.invoices, items + [replacement], db.sessions) && OnlineSessionsOk(db.requests, db.sessions, items + [replacement])
  {
    forall s | 0 <= s < |db.sessions| ensures OnlineSessionOk(s, db.sessions[s], db.requests, items + [replacement]) {
      assert OnlineSessionOk(s, db.sessions[s], db.requests, items);
      TotalAppend(items, replacement, LineIn(s));
    }
    forall v | 0 <= v < |db.invoices| ensures InvoiceOk(v, db.invoices[v], items + [replacement], db.sessions) {
      assert InvoiceOk(v, db.invoices[v], items, db.sessions);
      TotalAppend(items, replacement, LineOf(v));
    }
  }

  lemma RemadeStock(stock: seq<Stock>, items: seq<Item>, i: Id, marked: Item, replacement: Item)
    requires StockOk(stock, items) && i < |items| && SameStock(items[i], marked)
    requires replacement.recipe == items[i].recipe && replacement.quantity == items[i].quantity
    requires replacement.held == map[] && replacement.consumed == 0
    ensures StockOk(stock, items[i := marked] + [replacement])
  {
    assert RecipeOk(items[i], |stock|);
    SameStockKeeps(stock, items, items[i := marked]);
    NewItemsKeep(stock, items[i := marked], [replacement]);
  }

  lemma RemakeItemKeeps(db: Db, i: Id, routable: bool, capacity: nat)
    requires Inv(db, capacity)
    ensures Keeps(RemakeItem(db, i, routable), capacity)
  {
    var o := RemakeItem(db, i, routable);
    if o.Ok? {
      var it := db.items[i];
      var marked := it.(remadeAs := Some(|db.items|), wasted := it.wasted + 1);
      RemadeItemsAreOk(db, i);
      RemadeLinksAreOk(db.items, i, marked, Replacement(it, i));
      RemadeStock(db.stock, db.items, i, marked, Replacement(it, i));
      WorthStays(db, db.items[i := marked], capacity);
      LinesStay(db.invoices, db.items, db.items[i := marked], db.sessions);
      hide FloorOk, StockOk, ItemsOk, LinksOk, RequestsOk, WithinCapacity, InvoicesOk, OnlineSessionsOk;
      ReplacementBooks(db, db.items[i := marked], Replacement(it, i));
    }
  }
}

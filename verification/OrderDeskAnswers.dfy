/** When invoices and online orders are granted, and what is then written: in terms of the rows, for any state of
    the invariant. */
module OrderDeskAnswers {
  import opened Sums
  import opened OrderTables
  import opened OrderStock
  import opened OrderItems
  import opened OrderSteps
  import opened OrderBilling
  import opened OrderOnline
  import opened OrderPromises
  import OrderRuns
  import opened OrderAnswers

  // ----- invoices -----

  /** Live, unpaid, on no invoice, and of the session. */
  predicate MayBill(items: seq<Item>, s: Id, i: Id) {
    i < |items| && items[i].session == s && items[i].status != Cancelled && !items[i].paid && items[i].invoice.None?
  }

  /** The caller's list, or everything that may be billed. */
  predicate IsBilled(items: seq<Item>, s: Id, chosen: Option<seq<Id>>, i: Id) {
    if chosen.Some? then i in chosen.value else MayBill(items, s, i)
  }

  predicate ListOk(items: seq<Item>, s: Id, list: seq<Id>) {
    && list != [] && (forall k :: 0 <= k < |list| ==> MayBill(items, s, list[k]))
    && (forall j, k :: 0 <= j < k < |list| ==> list[j] != list[k])
  }

  ghost predicate SomethingToBill(items: seq<Item>, s: Id, chosen: Option<seq<Id>>) {
    if chosen.Some? then ListOk(items, s, chosen.value) else exists i: Id :: MayBill(items, s, i)
  }

  function LinkedItem(items: seq<Item>, s: Id, chosen: Option<seq<Id>>, v: Id, paid: bool, i: Id): Item
    requires i < |items|
  {
    if IsBilled(items, s, chosen, i) then items[i].(invoice := Some(v), paid := items[i].paid || paid) else items[i]
  }

  function Linked(items: seq<Item>, s: Id, chosen: Option<seq<Id>>, v: Id, paid: bool): (r: seq<Item>)
    ensures |r| == |items| && forall i :: 0 <= i < |items| ==> r[i] == LinkedItem(items, s, chosen, v, paid, i)
  {
    seq(|items|, i requires 0 <= i < |items| => LinkedItem(items, s, chosen, v, paid, i))
  }

  function OfInvoice(v: Id): Item -> bool { (it: Item) => it.invoice == Some(v) }

  function CostOn(v: Id): Item -> int { (it: Item) => if it.invoice == Some(v) then it.price * it.quantity else 0 }

  function CostAt(items: seq<Item>): Id -> int { (i: Id) => if i < |items| then items[i].price * items[i].quantity else 0 }

  /** An invoice over a subtotal: the discount takes no more than there is, the tax is the nearest hundredth. */
  predicate BillOver(inv: Invoice, s: Id, subTotal: int, discount: nat, rate: nat, paid: bool) {
    var taxable := if subTotal > discount then subTotal - discount else 0;
    && inv.session == s && inv.subTotal == subTotal && inv.discount == discount && inv.total == taxable + inv.tax
    && -5_000 <= taxable * rate - 10_000 * inv.tax < 5_000
    && inv.status == if paid then Paid else Unpaid
  }

  /** A session without a table ends as soon as everything live in it is paid. */
  predicate EndsIfPaid(items: seq<Item>, before: seq<Session>, after: seq<Session>, s: Id) {
    && s < |before|
    && var allPaid := forall i :: 0 <= i < |items| && items[i].session == s && items[i].status != Cancelled ==> items[i].paid;
       after == if before[s].table.None? && before[s].status == Active && allPaid then before[s := before[s].(status := Completed)] else before
  }

  lemma EndsExactly(db: Db, s: Id)
    requires s < |db.sessions|
    ensures EndsIfPaid(db.items, db.sessions, CloseIfPaid(db, s).sessions, s)
    ensures CloseIfPaid(db, s) == db.(sessions := CloseIfPaid(db, s).sessions)
  {
    assert forall i :: 0 <= i < |db.items| ==> (ItemIn(db.items[i], s) <==> db.items[i].session == s);
  }

  /** An invoice of an active session that is no online order, over the listed items or over all that may be billed,
      as far as there is stock for what of it is not reserved yet. */
  ghost predicate InvoiceSays(before: Db, o: Outcome, s: Id, chosen: Option<seq<Id>>, discount: nat, rate: nat, paid: bool, closing: bool, onlinePickup: bool) {
    var v := |before.invoices|;
    var linked := Linked(before.items, s, chosen, v, paid);
    var granted := s < |before.sessions| && before.sessions[s].status == Active && (onlinePickup || before.sessions[s].request.None?)
                   && SomethingToBill(before.items, s, chosen);
    && (o.Ok? <==> granted && EnoughFor(before.(items := linked), OfInvoice(v)))
    && (o == Fail(Insufficient) <==> granted && !EnoughFor(before.(items := linked), OfInvoice(v)))
    && (o == Fail(NotFound) <==> s >= |before.sessions|)
    && (o.Ok? ==>
         && |o.db.invoices| == v + 1 && |o.db.items| == |before.items| && o.db.invoices[..v] == before.invoices
         && o.db == before.(invoices := o.db.invoices, items := o.db.items, stock := o.db.stock, sessions := o.db.sessions)
         && (forall i :: 0 <= i < |before.items| ==> o.db.items[i] == WithHold(linked[i], OfInvoice(v)))
         && BillOver(o.db.invoices[v], s, Total(o.db.items, CostOn(v)), discount, rate, paid)
         && (chosen.Some? ==> o.db.invoices[v].subTotal == Total(chosen.value, CostAt(before.items)))
         && if paid && closing then EndsIfPaid(o.db.items, before.sessions, o.db.sessions, s) else o.db.sessions == before.sessions)
  }

  lemma {:induction false} SubTotalAdds(items: seq<Item>, ids: seq<Id>)
    requires forall k :: 0 <= k < |ids| ==> ids[k] < |items|
    ensures SubTotal(items, ids) == Total(ids, CostAt(items))
  {
    if ids != [] {
      SubTotalAdds(items, ids[..|ids| - 1]);
      UnitsMultiply(items[ids[|ids| - 1]], 0);
    }
  }

  lemma ListIsChecked(items: seq<Item>, s: Id, list: seq<Id>)
    ensures ListOk(items, s, list) <==> Distinct(list) && AllIn(items, s, list) && list != [] && AllBillable(items, list)
  {
  }

  lemma AllThatMayBeBilled(items: seq<Item>, s: Id)
    ensures var ids := BillableIds(items, s);
            && Distinct(ids) && AllIn(items, s, ids) && AllBillable(items, ids)
            && (ids != [] <==> exists i: Id :: MayBill(items, s, i))
            && forall i: Id :: i < |items| ==> (i in ids <==> MayBill(items, s, i))
  {
    BillableIdsAre(items, s);
    if BillableIds(items, s) != [] {
      assert MayBill(items, s, BillableIds(items, s)[0]);
    }
  }

  /** The ids that are billed, and that they are refused when they should be. */
  lemma ChosenIdsAre(db: Db, s: Id, chosen: Option<seq<Id>>)
    ensures var ids := ChosenIds(db, s, chosen);
            && (SomethingToBill(db.items, s, chosen) <==> Distinct(ids) && AllIn(db.items, s, ids) && ids != [] && AllBillable(db.items, ids))
            && (SomethingToBill(db.items, s, chosen) ==> forall i: Id :: i < |db.items| ==> (i in ids <==> IsBilled(db.items, s, chosen, i)))
  {
    hide MayBill, ListOk, Distinct, AllIn, AllBillable, BillableIds;
    if chosen.Some? {
      ListIsChecked(db.items, s, chosen.value);
    } else {
      AllThatMayBeBilled(db.items, s);
    }
  }

  lemma LinkedIs(db: Db, s: Id, chosen: Option<seq<Id>>, v: Id, paid: bool)
    requires SomethingToBill(db.items, s, chosen)
    ensures var ids := ChosenIds(db, s, chosen);
            && (forall k :: 0 <= k < |ids| ==> ids[k] < |db.items|)
            && LinkAll(db.items, ids, v, paid) == Linked(db.items, s, chosen, v, paid)
  {
    ChosenIdsAre(db, s, chosen);
    hide SomethingToBill, ChosenIds, LinkAll;
    var ids := ChosenIds(db, s, chosen);
    forall i | 0 <= i < |db.items|
      ensures LinkAll(db.items, ids, v, paid)[i] == Linked(db.items, s, chosen, v, paid)[i]
    {
      LinkAllAt(db.items, ids, v, paid, i);
    }
  }

  lemma SameSelection(v: Id, db: Db)
    ensures EnoughFor(db, OnInvoice(v)) <==> EnoughFor(db, OfInvoice(v))
    ensures forall it: Item :: WithHold(it, OnInvoice(v)) == WithHold(it, OfInvoice(v))
  {
    forall k | 0 <= k < |db.stock|
      ensures Total(db.items, Lacking(OnInvoice(v), k)) == Total(db.items, Lacking(OfInvoice(v), k))
    {
      TotalsAgree(db.items, db.items, Lacking(OnInvoice(v), k), Lacking(OfInvoice(v), k));
    }
    hide Total;
  }

  /** The state with the bill and its links, before stock is reserved, and what reserving makes of it. */
  lemma BilledAnswers(db: Db, s: Id, chosen: Option<seq<Id>>, bill: Invoice, paid: bool, capacity: nat)
    requires Inv(db, capacity) && SomethingToBill(db.items, s, chosen)
    ensures var ids, v := ChosenIds(db, s, chosen), |db.invoices|;
            var linked := Linked(db.items, s, chosen, v, paid);
            && (forall k :: 0 <= k < |ids| ==> ids[k] < |db.items|)
            && var r := ReservePending(Billed(db, s, ids, bill, paid), OnInvoice(v));
               && (r.Ok? <==> EnoughFor(db.(items := linked), OfInvoice(v)))
               && (r.Fail? ==> r == Fail(Insufficient))
               && (r.Ok? ==>
                    && |r.db.items| == |db.items| && r.db == db.(items := r.db.items, stock := r.db.stock, invoices := db.invoices + [bill])
                    && forall i :: 0 <= i < |db.items| ==> r.db.items[i] == WithHold(linked[i], OfInvoice(v)))
  {
    var ids, v := ChosenIds(db, s, chosen), |db.invoices|;
    LinkedIs(db, s, chosen, v, paid);
    LinkedStock(db, s, chosen, v, paid, capacity);
    hide Inv, ReservePending, LinkAll, ChosenIds, SomethingToBill, WithHold, Linked;
    var d := Billed(db, s, ids, bill, paid);
    ReserveAnswers(d, OnInvoice(v));
    SameSelection(v, d);
    EnoughIgnoresInvoices(d, db.(items := d.items), OfInvoice(v));
  }

  lemma EnoughIgnoresInvoices(a: Db, b: Db, sel: Item -> bool)
    requires a.items == b.items && a.stock == b.stock
    ensures EnoughFor(a, sel) == EnoughFor(b, sel)
  {
  }

  lemma LinkedStock(db: Db, s: Id, chosen: Option<seq<Id>>, v: Id, paid: bool, capacity: nat)
    requires Inv(db, capacity)
    ensures StockOk(db.stock, Linked(db.items, s, chosen, v, paid))
  {
    SameStockKeeps(db.stock, db.items, Linked(db.items, s, chosen, v, paid));
  }

  lemma InvoicedSubTotal(db: Db, s: Id, chosen: Option<seq<Id>>, paid: bool, after: seq<Item>, capacity: nat)
    requires Inv(db, capacity) && SomethingToBill(db.items, s, chosen) && |after| == |db.items|
    requires forall i :: 0 <= i < |after| ==> after[i] == WithHold(Linked(db.items, s, chosen, |db.invoices|, paid)[i], OfInvoice(|db.invoices|))
    ensures var ids := ChosenIds(db, s, chosen);
            && (forall k :: 0 <= k < |ids| ==> ids[k] < |db.items|)
            && SubTotal(db.items, ids) == Total(after, CostOn(|db.invoices|)) == Total(ids, CostAt(db.items))
  {
    hide Inv, ChosenIds, LinkAll, SomethingToBill, WithHold, Linked;
    var ids, v := ChosenIds(db, s, chosen), |db.invoices|;
    LinkedIs(db, s, chosen, v, paid);
    ChosenIdsAre(db, s, chosen);
    NobodyOn(db, v, capacity);
    LinkAllTotal(db.items, ids, v, paid);
    var linked := LinkAll(db.items, ids, v, paid);
    assert |linked| == |after|;
    SameCosts(linked, after, v);
    SubTotalAdds(db.items, ids);
  }

  lemma NobodyOn(db: Db, v: Id, capacity: nat)
    requires Inv(db, capacity) && v >= |db.invoices|
    ensures forall i :: 0 <= i < |db.items| ==> db.items[i].invoice != Some(v)
  {
    forall i | 0 <= i < |db.items|
      ensures db.items[i].invoice != Some(v)
    {
      assert ItemOk(db.items[i], db.sessions, db.invoices);
    }
  }

  lemma SameCosts(linked: seq<Item>, after: seq<Item>, v: Id)
    requires |after| == |linked| && forall i :: 0 <= i < |after| ==> after[i] == WithHold(linked[i], OfInvoice(v))
    ensures Total(linked, LineOf(v)) == Total(after, CostOn(v))
  {
    forall i | 0 <= i < |linked|
      ensures LineOf(v)(linked[i]) == CostOn(v)(after[i])
    {
      UnitsMultiply(linked[i], 0);
    }
    TotalsAgree(linked, after, LineOf(v), CostOn(v));
  }

  lemma BillIsOver(s: Id, subTotal: int, discount: nat, rate: nat, paid: bool)
    ensures BillOver(Bill(s, subTotal, discount, rate, paid), s, subTotal, discount, rate, paid)
  {
    TaxIsNearest(s, subTotal, discount, rate, paid);
  }

  lemma InvoiceAnswers(db: Db, s: Id, chosen: Option<seq<Id>>, discount: nat, rate: nat, paid: bool, closing: bool, onlinePickup: bool, capacity: nat)
    requires Inv(db, capacity)
    ensures InvoiceSays(db, CreateInvoice(db, s, chosen, discount, rate, paid, closing, onlinePickup), s, chosen, discount, rate, paid, closing, onlinePickup)
  {
    hide Inv, ReservePending, LinkAll, ChosenIds, SomethingToBill, WithHold, Linked, EnoughFor, BillOver, EndsIfPaid, CloseIfPaid, Bill, SubTotal;
    hide Distinct, AllIn, AllBillable;
    ChosenIdsAre(db, s, chosen);
    if s < |db.sessions| && SomethingToBill(db.items, s, chosen) {
      var ids, v := ChosenIds(db, s, chosen), |db.invoices|;
      LinkedIs(db, s, chosen, v, paid);
      var bill := Bill(s, SubTotal(db.items, ids), discount, rate, paid);
      BilledAnswers(db, s, chosen, bill, paid, capacity);
      BillIsOver(s, SubTotal(db.items, ids), discount, rate, paid);
      SameList(db, s, chosen);
      var r := ReservePending(Billed(db, s, ids, bill, paid), OnInvoice(v));
      if r.Ok? {
        InvoicedSubTotal(db, s, chosen, paid, r.db.items, capacity);
        EndsExactly(r.db, s);
      }
    }
  }

  lemma SameList(db: Db, s: Id, chosen: Option<seq<Id>>)
    ensures chosen.Some? ==> ChosenIds(db, s, chosen) == chosen.value
  {
  }

  // ----- paying and voiding -----

  function PaidItem(it: Item, v: Id): Item { if it.invoice == Some(v) then it.(paid := true) else it }

  /** A payment at the desk needs an unpaid invoice and stock for what of it is not reserved yet. */
  ghost predicate PaySays(before: Db, o: Outcome, v: Id, closing: bool) {
    var unpaid := v < |before.invoices| && before.invoices[v].status == Unpaid;
    && (o.Ok? <==> unpaid && EnoughFor(before, OfInvoice(v)))
    && (o.Fail? ==> o == Fail(if v >= |before.invoices| then NotFound else if unpaid then Insufficient else BadRequest))
    && (o.Ok? ==>
         && |o.db.items| == |before.items|
         && o.db == before.(invoices := before.invoices[v := before.invoices[v].(status := Paid)], items := o.db.items, stock := o.db.stock,
                            sessions := o.db.sessions)
         && (forall i :: 0 <= i < |before.items| ==> o.db.items[i] == WithHold(PaidItem(before.items[i], v), OfInvoice(v)))
         && if closing then EndsIfPaid(o.db.items, before.sessions, o.db.sessions, before.invoices[v].session) else o.db.sessions == before.sessions)
  }

  lemma UnpaidStands(db: Db, v: Id, capacity: nat)
    requires Inv(db, capacity) && v < |db.invoices|
    ensures db.invoices[v].session < |db.sessions|
    ensures db.invoices[v].status == Unpaid ==> db.sessions[db.invoices[v].session].request.None?
  {
    assert InvoiceOk(v, db.invoices[v], db.items, db.sessions);
  }

  lemma MarkedPaid(db: Db, v: Id, capacity: nat)
    requires Inv(db, capacity) && v < |db.invoices|
    ensures StockOk(db.stock, MarkPaid(db, v).items)
    ensures EnoughFor(MarkPaid(db, v), OfInvoice(v)) == EnoughFor(db, OfInvoice(v))
    ensures forall i :: 0 <= i < |db.items| ==> MarkPaid(db, v).items[i] == PaidItem(db.items[i], v)
  {
    var d := MarkPaid(db, v);
    SameStockKeeps(db.stock, db.items, d.items);
    forall k | 0 <= k < |db.stock|
      ensures Total(d.items, Lacking(OfInvoice(v), k)) == Total(db.items, Lacking(OfInvoice(v), k))
    {
      TotalsAgree(d.items, db.items, Lacking(OfInvoice(v), k), Lacking(OfInvoice(v), k));
    }
    hide Inv, Total;
  }

  lemma PayAnswers(db: Db, v: Id, closing: bool, capacity: nat)
    requires Inv(db, capacity)
    ensures PaySays(db, PayInvoice(db, v, closing), v, closing)
  {
    hide Inv, ReservePending, EnoughFor, CloseIfPaid, EndsIfPaid, WithHold;
    if v < |db.invoices| {
      UnpaidStands(db, v, capacity);
      MarkedPaid(db, v, capacity);
      ReserveAnswers(MarkPaid(db, v), OnInvoice(v));
      SameSelection(v, MarkPaid(db, v));
      var r := ReservePending(MarkPaid(db, v), OnInvoice(v));
      if r.Ok? {
        EndsExactly(r.db, db.invoices[v].session);
      }
    }
  }

  /** An online payment attempt reserves the stock of an unpaid invoice; a refund moves a paid invoice on. */
  lemma AttemptAnswers(db: Db, v: Id, all: bool, capacity: nat)
    requires Inv(db, capacity)
    ensures ReserveInvoice(db, v) == if v >= |db.invoices| then Fail(NotFound)
                                     else if db.invoices[v].status == Unpaid then ReservePending(db, OnInvoice(v)) else Fail(Conflict)
    ensures ReservePending(db, OnInvoice(v)).Ok? <==> EnoughFor(db, OfInvoice(v))
    ensures RefundInvoice(db, v, all) ==
              if v >= |db.invoices| then Fail(NotFound)
              else if db.invoices[v].status == Paid || db.invoices[v].status == PartiallyRefunded
              then Ok(db.(invoices := db.invoices[v := db.invoices[v].(status := if all then Refunded else PartiallyRefunded)]))
              else Fail(Conflict)
  {
    hide EnoughFor, ReservePending;
    ReserveAnswers(db, OnInvoice(v));
    SameSelection(v, db);
    hide Inv;
  }

  ghost predicate PayOnlineSays(before: Db, o: Outcome, v: Id, closing: bool) {
    && (o.Ok? <==> v < |before.invoices| && before.invoices[v].status == Unpaid)
    && (o.Fail? ==> o == Fail(if v < |before.invoices| then BadRequest else NotFound))
    && (o.Ok? ==>
         && |o.db.items| == |before.items|
         && o.db == before.(invoices := before.invoices[v := before.invoices[v].(status := Paid)], items := o.db.items, sessions := o.db.sessions)
         && (forall i :: 0 <= i < |before.items| ==> o.db.items[i] == PaidItem(before.items[i], v))
         && if closing then EndsIfPaid(o.db.items, before.sessions, o.db.sessions, before.invoices[v].session) else o.db.sessions == before.sessions)
  }

  lemma PayOnlineAnswers(db: Db, v: Id, closing: bool, capacity: nat)
    requires Inv(db, capacity)
    ensures PayOnlineSays(db, PayOnline(db, v, closing), v, closing)
  {
    hide Inv, CloseIfPaid, EndsIfPaid;
    if v < |db.invoices| {
      UnpaidStands(db, v, capacity);
      MarkedPaid(db, v, capacity);
      EndsExactly(MarkPaid(db, v), db.invoices[v].session);
    }
  }

  /** Its items are on no invoice again, and hold nothing. */
  ghost predicate VoidSays(before: Db, o: Outcome, v: Id) {
    && (o.Ok? <==> v < |before.invoices| && before.invoices[v].status == Unpaid)
    && (o.Fail? ==> o == Fail(if v < |before.invoices| then BadRequest else NotFound))
    && (o.Ok? ==>
         && |o.db.items| == |before.items|
         && o.db == before.(invoices := before.invoices[v := before.invoices[v].(status := Voided)], items := o.db.items, stock := o.db.stock)
         && forall i :: 0 <= i < |before.items| ==>
              o.db.items[i] == if before.items[i].invoice == Some(v) then before.items[i].(invoice := None, held := map[]) else before.items[i])
  }

  lemma VoidAnswers(db: Db, v: Id, capacity: nat)
    requires Inv(db, capacity)
    ensures VoidSays(db, VoidInvoice(db, v), v)
  {
    hide Inv, Release, SameOnHand, Freed;
    VoidPromise(db, v, capacity);
    if v < |db.invoices| {
      UnpaidStands(db, v, capacity);
      if db.invoices[v].status == Unpaid {
        ReleasedFor(db, v, capacity);
      }
    }
  }

  lemma ReleasedFor(db: Db, v: Id, capacity: nat)
    requires Inv(db, capacity) && v < |db.invoices| && db.invoices[v].status == Unpaid
    ensures Release(db, PendingOn(v)).Ok?
    ensures var d := Release(db, PendingOn(v)).db;
            && d == db.(items := d.items, stock := d.stock) && |d.items| == |db.items|
            && forall i :: 0 <= i < |db.items| ==>
                 && (db.items[i].invoice == Some(v) ==> !db.items[i].paid)
                 && d.items[i] == if db.items[i].invoice == Some(v) then db.items[i].(held := map[]) else db.items[i]
  {
    ReleaseEffect(db, PendingOn(v));
    forall i | 0 <= i < |db.items|
      ensures db.items[i].invoice == Some(v) ==> !db.items[i].paid && (db.items[i].status != Pending ==> db.items[i].held == map[])
    {
      assert ItemOk(db.items[i], db.sessions, db.invoices);
    }
    hide Inv, Release;
  }

  // ----- online orders -----

  function CostOf(): Quote -> int { (q: Quote) => q.price * q.quantity }

  lemma {:induction false} QuotedTotalAdds(quotes: seq<Quote>)
    ensures QuotedTotal(quotes) == Total(quotes, CostOf())
  {
    if quotes != [] {
      QuotedTotalAdds(quotes[..|quotes| - 1]);
    }
  }

  /** A request keeps its quotes, their sum and its times, and is pending. */
  ghost predicate SubmitSays(before: Db, o: Outcome, quotes: seq<Quote>, pickupAt: Option<int>, expiresAt: int) {
    && (o.Ok? <==> quotes != [] && forall i :: 0 <= i < |quotes| ==> quotes[i].quantity > 0)
    && (o.Fail? ==> o == Fail(BadRequest))
    && (o.Ok? ==>
         o.db == before.(requests := before.requests + [OnlineRequest(quotes, Total(quotes, CostOf()), pickupAt, expiresAt, RequestPending, None)]))
  }

  lemma SubmitAnswers(db: Db, quotes: seq<Quote>, pickupAt: Option<int>, expiresAt: int)
    ensures SubmitSays(db, SubmitRequest(db, quotes, pickupAt, expiresAt), quotes, pickupAt, expiresAt)
  {
    QuotedTotalAdds(quotes);
    hide QuotedTotal, Total;
  }

  ghost predicate RejectSays(before: Db, o: Outcome, q: Id, now: int) {
    && (o.Ok? <==> q < |before.requests| && before.requests[q].status == RequestPending && now < before.requests[q].expiresAt)
    && (o.Fail? ==> o == Fail(Conflict))
    && (o.Ok? ==> o.db == before.(requests := before.requests[q := before.requests[q].(status := Rejected)]))
  }

  lemma RejectAnswers(db: Db, q: Id, now: int)
    ensures RejectSays(db, RejectRequest(db, q, now), q, now)
  {
  }

  /** The accepted requests for a time. */
  function PlacedAt(requests: seq<OnlineRequest>, at: int): set<Id> {
    set q: Id | q < |requests| && requests[q].status == Accepted && requests[q].pickupAt == Some(at)
  }

  lemma PlacedSoFar(requests: seq<OnlineRequest>, n: nat, at: int)
    requires |requests| == n + 1
    ensures |PlacedAt(requests, at)| == |PlacedAt(requests[..n], at)| + BookedAt(at)(requests[n])
  {
    var last := if requests[n].status == Accepted && requests[n].pickupAt == Some(at) then {n} else {};
    assert PlacedAt(requests, at) == PlacedAt(requests[..n], at) + last;
  }

  lemma {:induction false} BookedCounts(requests: seq<OnlineRequest>, at: int)
    ensures Total(requests, BookedAt(at)) == |PlacedAt(requests, at)|
  {
    if requests == [] {
      assert PlacedAt(requests, at) == {};
    } else {
      var n := |requests| - 1;
      BookedCounts(requests[..n], at);
      PlacedSoFar(requests, n, at);
      hide PlacedAt;
    }
  }

  predicate SameAsQuoted(quotes: seq<Quote>, lines: seq<Line>) {
    |lines| == |quotes| && forall i :: 0 <= i < |lines| ==>
      Quote(lines[i].menuItem, lines[i].quantity, lines[i].price, lines[i].selected) == quotes[i]
  }

  function LineNeeds(k: Id): Line -> int { (l: Line) => if k in l.recipe then l.recipe[k] * l.quantity else 0 }

  ghost predicate EnoughForLines(db: Db, lines: seq<Line>) {
    forall k :: 0 <= k < |db.stock| ==> db.stock[k].reserved + Total(lines, LineNeeds(k)) <= db.stock[k].stock
  }

  /** A pending request in time is accepted while its slot has a place, if the lines are still what was quoted and can be
      made; the order is then a session of its own, whose items hold all they need. */
  ghost predicate AcceptSays(before: Db, o: Outcome, q: Id, lines: seq<Line>, now: int, capacity: nat) {
    && (q >= |before.requests| ==> o == Fail(NotFound))
    && (q < |before.requests| ==>
         var r := before.requests[q];
         var granted := r.status == RequestPending && now < r.expiresAt
                        && (r.pickupAt.Some? ==> now < r.pickupAt.value && |PlacedAt(before.requests, r.pickupAt.value)| < capacity)
                        && SameAsQuoted(r.quotes, lines) && forall i :: 0 <= i < |lines| ==> CanBeOrdered(lines[i], |before.stock|);
         && (o.Ok? <==> granted && EnoughForLines(before, lines))
         && (o.Fail? ==> o == Fail(if granted then Insufficient else Conflict))
         && (o.Ok? ==>
              var s := |before.sessions|;
              && |o.db.items| == |before.items| + |lines| && o.db.items[..|before.items|] == before.items
              && o.db == before.(items := o.db.items, stock := o.db.stock, sessions := before.sessions + [Session(None, Active, Some(q))],
                                 requests := before.requests[q := r.(status := Accepted, session := Some(s))])
              && forall i :: 0 <= i < |lines| ==>
                   var it := o.db.items[|before.items| + i];
                   JustOrdered(it.(held := map[]), s, lines[i]) && it.held == map k | k in lines[i].recipe :: lines[i].recipe[k] * lines[i].quantity))
  }

  lemma NewLinesLack(db: Db, q: Id, lines: seq<Line>, k: Id)
    requires forall i :: 0 <= i < |db.items| ==> db.items[i].session < |db.sessions|
    ensures Total(Opened(db, q, lines).items, Lacking(InSession(|db.sessions|), k)) == Total(lines, LineNeeds(k))
  {
    var s := |db.sessions|;
    var more := NewItems(s, lines);
    TotalConcat(db.items, more, Lacking(InSession(s), k));
    TotalZero(db.items, Lacking(InSession(s), k));
    TotalsAgree(more, lines, Lacking(InSession(s), k), LineNeeds(k));
  }

  lemma OpenedAnswers(db: Db, q: Id, lines: seq<Line>, capacity: nat)
    requires Inv(db, capacity) && forall i :: 0 <= i < |lines| ==> LineOk(lines[i], |db.stock|)
    ensures var s := |db.sessions|;
            var r := ReservePending(Opened(db, q, lines), InSession(s));
            && (r.Ok? <==> EnoughForLines(db, lines)) && (r.Fail? ==> r == Fail(Insufficient))
            && (r.Ok? ==>
                 && |r.db.items| == |db.items| + |lines| && r.db.items[..|db.items|] == db.items
                 && r.db == db.(items := r.db.items, stock := r.db.stock, sessions := db.sessions + [Session(None, Active, Some(q))])
                 && forall i :: 0 <= i < |lines| ==> r.db.items[|db.items| + i] == WithHold(NewItem(s, lines[i]), InSession(s)))
  {
    hide ReservePending, StockOk, Total, Lacking, LineNeeds, LineOk;
    var s, o := |db.sessions|, Opened(db, q, lines);
    ItemsHaveSessions(db);
    OpenedStock(db, q, lines);
    hide Inv;
    ReserveAnswers(o, InSession(s));
    forall k ensures Total(o.items, Lacking(InSession(s), k)) == Total(lines, LineNeeds(k)) {
      NewLinesLack(db, q, lines, k);
    }
    var r := ReservePending(o, InSession(s));
    if r.Ok? {
      forall i | 0 <= i < |db.items|
        ensures r.db.items[i] == db.items[i]
      {
        assert r.db.items[i] == WithHold(o.items[i], InSession(s));
      }
    }
  }

  lemma AcceptAnswers(db: Db, q: Id, lines: seq<Line>, now: int, capacity: nat)
    requires Inv(db, capacity)
    ensures AcceptSays(db, AcceptRequest(db, q, lines, now, capacity), q, lines, now, capacity)
  {
    hide Inv, ReservePending, EnoughForLines, LineOk, CanBeOrdered, PlacedAt;
    forall l: Line ensures LineOk(l, |db.stock|) <==> CanBeOrdered(l, |db.stock|) {
      OrderableIs(l, |db.stock|);
    }
    if q < |db.requests| {
      if db.requests[q].pickupAt.Some? {
        BookedCounts(db.requests, db.requests[q].pickupAt.value);
      }
      if forall i :: 0 <= i < |lines| ==> LineOk(lines[i], |db.stock|) {
        OpenedAnswers(db, q, lines, capacity);
      }
    }
  }

  lemma OrderableIs(l: Line, ingredients: nat)
    ensures LineOk(l, ingredients) <==> CanBeOrdered(l, ingredients)
  {
  }

  /** An accepted order whose session is still active is collected once it has items and all of them are ready: they are
      served, paid and on an invoice over what was quoted, and the session is completed. */
  ghost predicate CollectSays(before: Db, o: Outcome, q: Id) {
    && (o.Ok? <==>
          && q < |before.requests| && before.requests[q].status == Accepted && before.requests[q].session.Some?
          && before.requests[q].session.value < |before.sessions| && before.sessions[before.requests[q].session.value].status == Active
          && (exists i :: 0 <= i < |before.items| && before.items[i].session == before.requests[q].session.value)
          && (forall i :: 0 <= i < |before.items| && before.items[i].session == before.requests[q].session.value ==> before.items[i].status == Ready))
    && (o.Fail? ==> o == Fail(Conflict))
    && (o.Ok? ==>
         var s, v := before.requests[q].session.value, |before.invoices|;
         && |o.db.items| == |before.items| && |o.db.invoices| == v + 1 && o.db.invoices[..v] == before.invoices
         && BillOver(o.db.invoices[v], s, before.requests[q].quotedSubtotal, 0, 0, true)
         && o.db == before.(items := o.db.items, stock := o.db.stock, invoices := o.db.invoices,
                            sessions := before.sessions[s := before.sessions[s].(status := Completed)])
         && forall i :: 0 <= i < |before.items| ==>
              o.db.items[i] == if before.items[i].session == s then before.items[i].(invoice := Some(v), paid := true, status := Served) else before.items[i])
  }

  function Answered(c: Collection): Outcome { if c.Collected? then c.outcome else Fail(Conflict) }

  /** What the invariant says of the session of an accepted order. */
  lemma OrderStands(db: Db, q: Id, capacity: nat)
    requires Inv(db, capacity) && q < |db.requests| && db.requests[q].session.Some?
    ensures var s := db.requests[q].session.value;
            && s < |db.sessions| && db.sessions[s].table.None? && db.sessions[s].request == Some(q)
            && Total(db.items, LineIn(s)) == db.requests[q].quotedSubtotal
            && (db.sessions[s].status == Active ==>
                 forall i :: 0 <= i < |db.items| && db.items[i].session == s ==>
                   !db.items[i].paid && db.items[i].invoice.None? && db.items[i].status != Cancelled
                   && (db.items[i].status != Pending ==> db.items[i].held == map[]))
  {
    TotalIsAsQuoted(db, q, db.requests[q].session.value, capacity);
    var s := db.requests[q].session.value;
    assert OnlineSessionOk(s, db.sessions[s], db.requests, db.items);
    assert forall i :: 0 <= i < |db.items| ==> ItemOk(db.items[i], db.sessions, db.invoices);
  }

  /** Nothing is left to reserve for an order that is ready. */
  lemma ReadyIsReserved(db: Db, s: Id, v: Id, capacity: nat)
    requires Inv(db, capacity) && v == |db.invoices|
    requires forall i :: 0 <= i < |db.items| && db.items[i].session == s ==> db.items[i].status == Ready
    ensures EnoughFor(db.(items := Linked(db.items, s, None, v, true)), OfInvoice(v))
  {
    var linked := Linked(db.items, s, None, v, true);
    forall k | 0 <= k < |db.stock|
      ensures db.stock[k].reserved + Total(linked, Lacking(OfInvoice(v), k)) <= db.stock[k].stock
    {
      assert StockRowOk(k, db.stock[k], db.items);
      forall i | 0 <= i < |linked|
        ensures Lacking(OfInvoice(v), k)(linked[i]) == 0
      {
        assert ItemOk(db.items[i], db.sessions, db.invoices);
      }
      TotalZero(linked, Lacking(OfInvoice(v), k));
    }
  }

  lemma CollectAnswers(db: Db, q: Id, capacity: nat)
    requires Inv(db, capacity)
    ensures CollectSays(db, Answered(CollectRequest(db, q)), q)
  {
    hide Inv, CreateInvoice, BillOver;
    assert forall i, s :: 0 <= i < |db.items| ==> (ItemIn(db.items[i], s) <==> db.items[i].session == s);
    if q < |db.requests| && db.requests[q].session.Some? {
      var s := db.requests[q].session.value;
      OrderStands(db, q, capacity);
      if CollectRequest(db, q).Collected? {
        CollectionIsInvoiced(db, q, s, capacity);
        CollectedAre(db, q, s, capacity);
        hide CollectRequest;
      }
    }
  }

  lemma CollectionIsInvoiced(db: Db, q: Id, s: Id, capacity: nat)
    requires Inv(db, capacity) && q < |db.requests| && db.requests[q].session == Some(s) && CollectRequest(db, q).Collected?
    ensures CollectRequest(db, q).outcome.Ok?
  {
    CollectingHolds(db, q);
    var i :| 0 <= i < |db.items| && ItemIn(db.items[i], s);
    OrderStands(db, q, capacity);
    forall j | 0 <= j < |db.items| && db.items[j].session == s
      ensures db.items[j].status == Ready
    {
      assert ItemIn(db.items[j], s);
    }
    assert MayBill(db.items, s, i);
    hide Inv, CreateInvoice;
    InvoiceAnswers(db, s, None, 0, 0, true, true, true, capacity);
    ReadyIsReserved(db, s, |db.invoices|, capacity);
  }

  lemma CollectedAre(db: Db, q: Id, s: Id, capacity: nat)
    requires Inv(db, capacity) && q < |db.requests| && db.requests[q].session == Some(s)
    requires CollectRequest(db, q).Collected? && CollectRequest(db, q).outcome.Ok?
    ensures var d, v := CollectRequest(db, q).outcome.db, |db.invoices|;
            && |d.items| == |db.items| && |d.invoices| == v + 1 && d.invoices[..v] == db.invoices && s < |db.sessions|
            && BillOver(d.invoices[v], s, db.requests[q].quotedSubtotal, 0, 0, true)
            && d == db.(items := d.items, stock := d.stock, invoices := d.invoices, sessions := db.sessions[s := db.sessions[s].(status := Completed)])
            && forall i :: 0 <= i < |db.items| ==>
                 d.items[i] == if db.items[i].session == s then db.items[i].(invoice := Some(v), paid := true, status := Served) else db.items[i]
  {
    CollectingHolds(db, q);
    CollectedItems(db, q, s);
    OrderRuns.CollectedTotal(db, q, capacity);
    hide Inv, CollectRequest;
    BillIsOver(s, SubTotalOf(db, s), 0, 0, true);
  }

  /** An accepted order is cancelled while its session is active and nothing of it was served: what was started is
      written off, everything is cancelled and holds nothing. */
  ghost predicate CancelSays(before: Db, o: Outcome, q: Id) {
    && (o.Ok? <==>
          && q < |before.requests| && before.requests[q].status == Accepted && before.requests[q].session.Some?
          && before.requests[q].session.value < |before.sessions| && before.sessions[before.requests[q].session.value].status == Active
          && (forall i :: 0 <= i < |before.items| && before.items[i].session == before.requests[q].session.value ==> before.items[i].status != Served))
    && (o.Fail? ==> o == Fail(Conflict))
    && (o.Ok? ==>
         var s := before.requests[q].session.value;
         && |o.db.items| == |before.items|
         && o.db == before.(items := o.db.items, stock := o.db.stock,
                            sessions := before.sessions[s := before.sessions[s].(status := SessionCancelled)],
                            requests := before.requests[q := before.requests[q].(status := RequestCancelled)])
         && forall i :: 0 <= i < |before.items| ==>
              var it := before.items[i];
              o.db.items[i] == if it.session != s then it
                               else it.(status := Cancelled, held := map[], wasted := it.wasted + if it.status == Pending then 0 else 1))
  }

  /** Writing off what was started leaves the books in order, so that the session can be called off. */
  lemma CanBeCalledOff(db: Db, s: Id, capacity: nat)
    requires Inv(db, capacity) && s < |db.sessions|
    ensures CallOff(db.(items := MapItems(db.items, WasteStarted(s))), s).Ok?
  {
    var w := db.(items := MapItems(db.items, WasteStarted(s)));
    SameStockKeeps(db.stock, db.items, w.items);
    CallOffStock(w, s);
  }

  lemma CancelledAre(db: Db, q: Id, s: Id, capacity: nat)
    requires Inv(db, capacity) && q < |db.requests| && db.requests[q].session == Some(s) && s < |db.sessions| && db.sessions[s].status == Active
    requires forall i :: 0 <= i < |db.items| && db.items[i].session == s ==> db.items[i].status != Served
    ensures var w := db.(items := MapItems(db.items, WasteStarted(s)));
            && CallOff(w, s).Ok?
            && var d := CallOff(w, s).db;
               && |d.items| == |db.items|
               && d == db.(items := d.items, stock := d.stock, sessions := db.sessions[s := db.sessions[s].(status := SessionCancelled)])
               && forall i :: 0 <= i < |db.items| ==>
                    var it := db.items[i];
                    d.items[i] == if it.session != s then it
                                  else it.(status := Cancelled, held := map[], wasted := it.wasted + if it.status == Pending then 0 else 1)
  {
    hide Inv, CallOff;
    OrderStands(db, q, capacity);
    CanBeCalledOff(db, s, capacity);
    var w := db.(items := MapItems(db.items, WasteStarted(s)));
    CallOffLength(w, s);
    CallOffFrame(w, s);
    var d := CallOff(w, s).db;
    forall i | 0 <= i < |db.items|
      ensures var it := db.items[i];
              d.items[i] == if it.session != s then it
                            else it.(status := Cancelled, held := map[], wasted := it.wasted + if it.status == Pending then 0 else 1)
    {
      CallOffEffect(w, s, i);
    }
  }

  lemma CancelAnswers(db: Db, q: Id, capacity: nat)
    requires Inv(db, capacity)
    ensures CancelSays(db, CancelRequest(db, q), q)
  {
    hide Inv, CallOff, AnyPaidOrInvoiced;
    assert forall i, s :: 0 <= i < |db.items| ==> (ItemIn(db.items[i], s) <==> db.items[i].session == s);
    if q < |db.requests| && db.requests[q].session.Some? {
      var s := db.requests[q].session.value;
      OrderStands(db, q, capacity);
      NothingBilledIs(db.items, s);
      if db.sessions[s].status == Active && forall i :: 0 <= i < |db.items| && db.items[i].session == s ==> db.items[i].status != Served {
        CancelledAre(db, q, s, capacity);
      }
    }
  }
}

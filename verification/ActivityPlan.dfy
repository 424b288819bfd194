/** The activity simulator: it restocks every seventh day for the orders of the week, consumes stock order
    by order, and runs one cash shift a day. Money is in hundredths, stock in ten-thousandths of a unit. */
module ActivityPlan {
  import opened Sums

  type Id = nat

  const OPENING_FLOAT := 50_000_000
  const WHOLE_UNIT := 10_000

  datatype Ingredient = Ingredient(stock: int, reserved: int, reorderPoint: nat, wholeUnits: bool)
  datatype Use = Use(ingredient: Id, quantity: nat)
  datatype Outcome = Rejected | CancelledPending | CancelledPrepared | Served
  datatype RefundKind = NoRefund | FullRefund | HalfRefund

  /** `uses` are the recipe rows of all lines, each times the quantity of its line. */
  datatype Order = Order(day: nat, outcome: Outcome, total: nat, refund: RefundKind, uses: seq<Use>)

  datatype StockMove = Import(ingredient: Id, quantity: int) | Export(ingredient: Id, quantity: int)
  datatype Shift = Shift(opening: int, closing: int)
  datatype Cash = Sale(amount: nat) | Refund(amount: nat)
  datatype Plan = Plan(stock: seq<int>, moves: seq<StockMove>, cash: seq<Cash>, shifts: seq<Shift>, balance: int)
  datatype Result = Built(plan: Plan) | Refused | Oversold

  predicate Prepared(o: Order) { o.outcome == Served || o.outcome == CancelledPrepared }

  function Of(k: Id): Use -> int { (u: Use) => if u.ingredient == k then u.quantity else 0 }
  function DeltaOf(k: Id): StockMove -> int {
    (m: StockMove) => if m.ingredient != k then 0 else if m.Import? then m.quantity else -m.quantity
  }

  function ExportOf(k: Id): StockMove -> int { (m: StockMove) => if m.Export? && m.ingredient == k then m.quantity else 0 }

  /** What the prepared orders of the days from `first` up to `last` take of ingredient `k`. */
  function Between(first: nat, last: nat, k: Id): Order -> int {
    (o: Order) => if first <= o.day < last && Prepared(o) then Total(o.uses, Of(k)) else 0
  }

  function OnDay(day: nat, k: Id): Order -> int { Between(day, day + 1, k) }

  /** Rounds half away from zero, as the decimal library does, from hundredths of the smallest quantity. */
  function Round(hundredths: int): int {
    if hundredths >= 0 then (hundredths + 50) / 100 else -((-hundredths + 50) / 100)
  }

  function CeilWhole(q: int): int { if q % WHOLE_UNIT == 0 then q else q - q % WHOLE_UNIT + WHOLE_UNIT }

  /** A delivery: 15 percent above what the week needs, plus the reorder point, less what is there. */
  function DeliveryFor(required: nat, it: Ingredient, stock: int): int {
    var q := Round(115 * required + 100 * (it.reorderPoint - stock));
    if it.wholeUnits then CeilWhole(q) else q
  }

  function AfterDelivery(required: nat, it: Ingredient, stock: int): int {
    var quantity := DeliveryFor(required, it, stock);
    if quantity > 0 then stock + quantity else stock
  }

  /** After the delivery, if one is needed at all, the week's need and the reorder point are covered. */
  lemma DeliveryCovers(required: nat, it: Ingredient, stock: int)
    ensures AfterDelivery(required, it, stock) >= required + it.reorderPoint
  {
    var exact := 115 * required + 100 * (it.reorderPoint - stock);
    assert exact >= 100 * (required + it.reorderPoint - stock);
    assert Round(exact) >= required + it.reorderPoint - stock;
    assert CeilWhole(Round(exact)) >= Round(exact);
  }

  function RefundOf(o: Order): nat {
    match o.refund
    case NoRefund => 0
    case FullRefund => o.total
    case HalfRefund => (o.total + 1) / 2
  }

  /** A delivery is 15 percent above the need plus the reorder point less the stock, to the nearest smallest quantity;
      in whole units it is the next whole number of them. */
  lemma DeliveryIsNearest(required: nat, it: Ingredient, stock: int)
    ensures var exact, q := 115 * required + 100 * (it.reorderPoint - stock), DeliveryFor(required, it, stock);
            if it.wholeUnits then q % 10_000 == 0 && exact - 50 <= 100 * q < exact + 50 + 100 * 10_000
            else -50 <= 100 * q - exact <= 50
  {
    var exact := 115 * required + 100 * (it.reorderPoint - stock);
    assert -50 <= 100 * Round(exact) - exact <= 50;
    assert Round(exact) <= CeilWhole(Round(exact)) < Round(exact) + 10_000 && CeilWhole(Round(exact)) % 10_000 == 0;
  }

  /** Half a total is rounded up. */
  predicate GivesBack(o: Order, refund: int) {
    match o.refund
    case NoRefund => refund == 0
    case FullRefund => refund == o.total
    case HalfRefund => o.total <= 2 * refund <= o.total + 1
  }

  /** What one order moves on its own day, by what became of it; on any other day it moves nothing. */
  lemma WhatAnOrderMoves(o: Order, first: nat, last: nat, k: Id)
    ensures var taken, sold, refunded := Between(first, last, k)(o), SoldBetween(first, last)(o), RefundedBetween(first, last)(o);
            if o.day < first || o.day >= last then taken == sold == refunded == 0
            else match o.outcome
              case Rejected => taken == sold == refunded == 0
              case CancelledPending => taken == sold == refunded == 0
              case CancelledPrepared => taken == Total(o.uses, Of(k)) && sold == refunded == 0
              case Served => taken == Total(o.uses, Of(k)) && sold == o.total && GivesBack(o, refunded)
  {
  }

  predicate OrdersOk(orders: seq<Order>, ingredients: nat) {
    forall i :: 0 <= i < |orders| ==> forall j :: 0 <= j < |orders[i].uses| ==> orders[i].uses[j].ingredient < ingredients
  }

  // ----- covering the rest of the week -----

  /** On a day whose first `n` orders are done, every ingredient still covers the rest of its week. */
  ghost predicate Covered(stock: seq<int>, items: seq<Ingredient>, orders: seq<Order>, day: nat, n: nat)
    requires n <= |orders| && |stock| == |items|
  {
    forall k :: 0 <= k < |stock| ==>
      stock[k] >= items[k].reorderPoint + Total(orders[n..], OnDay(day, k)) + Total(orders, Between(day + 1, WeekEnd(day), k))
  }

  function WeekEnd(day: nat): nat { day - day % 7 + 7 }

  lemma UsesNonNegative(o: Order, first: nat, last: nat, k: Id)
    ensures Between(first, last, k)(o) >= 0
  {
    TotalNonNegative(o.uses, Of(k));
  }

  lemma SplitDays(orders: seq<Order>, day: nat, last: nat, k: Id)
    requires day < last
    ensures Total(orders, Between(day, last, k)) == Total(orders, OnDay(day, k)) + Total(orders, Between(day + 1, last, k))
  {
    TotalsAdd(orders, orders, OnDay(day, k), Between(day + 1, last, k), Between(day, last, k));
  }

  lemma RestNonNegative(orders: seq<Order>, first: nat, last: nat, k: Id)
    ensures Total(orders, Between(first, last, k)) >= 0
  {
    forall i | 0 <= i < |orders| ensures Between(first, last, k)(orders[i]) >= 0 {
      UsesNonNegative(orders[i], first, last, k);
    }
    TotalNonNegative(orders, Between(first, last, k));
  }

  lemma TotalFrom<T>(s: seq<T>, n: nat, f: T -> int)
    requires n < |s|
    ensures Total(s[n..], f) == f(s[n]) + Total(s[n + 1..], f)
  {
    assert s[n..] == [s[n]] + s[n + 1..];
    TotalConcat([s[n]], s[n + 1..], f);
    assert Total([s[n]], f) == Total([], f) + f(s[n]) by {
      assert [s[n]][..0] == [];
    }
  }

  /** The end of a day that is not the last of its week leaves the next day covered. */
  lemma NextDayCovered(stock: seq<int>, items: seq<Ingredient>, orders: seq<Order>, day: nat)
    requires |stock| == |items| && Covered(stock, items, orders, day, |orders|) && (day + 1) % 7 != 0
    ensures Covered(stock, items, orders, day + 1, 0)
  {
    assert WeekEnd(day + 1) == WeekEnd(day) && day + 1 < WeekEnd(day);
    assert orders[0..] == orders && orders[|orders|..] == [];
    forall k | 0 <= k < |stock|
      ensures stock[k] >= items[k].reorderPoint + Total(orders[0..], OnDay(day + 1, k)) + Total(orders, Between(day + 2, WeekEnd(day + 1), k))
    {
      SplitDays(orders, day + 1, WeekEnd(day), k);
      assert Total(orders[|orders|..], OnDay(day, k)) == 0;
    }
  }

  lemma RestockedIsCovered(stock: seq<int>, items: seq<Ingredient>, orders: seq<Order>, day: nat)
    requires |stock| == |items| && day % 7 == 0
    requires forall k :: 0 <= k < |stock| ==> stock[k] >= items[k].reorderPoint + Total(orders, Between(day, day + 7, k))
    ensures Covered(stock, items, orders, day, 0)
  {
    assert orders[0..] == orders && WeekEnd(day) == day + 7;
    forall k | 0 <= k < |stock|
      ensures stock[k] >= items[k].reorderPoint + Total(orders[0..], OnDay(day, k)) + Total(orders, Between(day + 1, WeekEnd(day), k))
    {
      SplitDays(orders, day, day + 7, k);
    }
  }

  // ----- the loops -----

  /** The log explains the stock. */
  ghost predicate Explained(items: seq<Ingredient>, stock: seq<int>, log: seq<StockMove>) {
    |stock| == |items| && forall k :: 0 <= k < |items| ==> stock[k] == items[k].stock + Total(log, DeltaOf(k))
  }

  lemma Logged(items: seq<Ingredient>, stock: seq<int>, log: seq<StockMove>, m: StockMove)
    requires Explained(items, stock, log) && m.ingredient < |items|
    ensures Explained(items, stock[m.ingredient := stock[m.ingredient] + DeltaOf(m.ingredient)(m)], log + [m])
    ensures forall k: nat :: Total(log + [m], ExportOf(k)) == Total(log, ExportOf(k)) + ExportOf(k)(m)
  {
    forall k: nat
      ensures Total(log + [m], DeltaOf(k)) == Total(log, DeltaOf(k)) + DeltaOf(k)(m)
      ensures Total(log + [m], ExportOf(k)) == Total(log, ExportOf(k)) + ExportOf(k)(m)
    {
      TotalAppend(log, m, DeltaOf(k));
      TotalAppend(log, m, ExportOf(k));
    }
  }

  lemma Imported(items: seq<Ingredient>, stock: seq<int>, log: seq<StockMove>, k: Id, quantity: int)
    requires Explained(items, stock, log) && k < |items|
    ensures Explained(items, stock[k := stock[k] + quantity], log + [Import(k, quantity)])
    ensures forall j: nat :: Total(log + [Import(k, quantity)], ExportOf(j)) == Total(log, ExportOf(j))
  {
    Logged(items, stock, log, Import(k, quantity));
  }

  lemma Exported(items: seq<Ingredient>, stock: seq<int>, log: seq<StockMove>, u: Use)
    requires Explained(items, stock, log) && u.ingredient < |items|
    ensures Explained(items, stock[u.ingredient := stock[u.ingredient] - u.quantity], log + [Export(u.ingredient, u.quantity)])
    ensures forall j: nat :: Total(log + [Export(u.ingredient, u.quantity)], ExportOf(j)) == Total(log, ExportOf(j)) + Of(j)(u)
  {
    Logged(items, stock, log, Export(u.ingredient, u.quantity));
  }

  /** What the prepared orders of the week from `day` on take of ingredient `k`. */
  function WeekNeed(orders: seq<Order>, day: nat, k: Id): (r: nat)
    ensures r == Total(orders, Between(day, day + 7, k))
  {
    RestNonNegative(orders, day, day + 7, k);
    Total(orders, Between(day, day + 7, k))
  }

  /** The weekly delivery of one ingredient, if it needs one. */
  method Deliver(orders: seq<Order>, items: seq<Ingredient>, day: nat, k: Id, before: seq<int>, log: seq<StockMove>)
    returns (stock: seq<int>, moves: seq<StockMove>)
    requires Explained(items, before, log) && k < |items|
    ensures Explained(items, stock, moves) && stock == before[k := AfterDelivery(WeekNeed(orders, day, k), items[k], before[k])]
    ensures forall j: nat :: Total(moves, ExportOf(j)) == Total(log, ExportOf(j))
  {
    stock, moves := before, log;
    var required := Required(orders, day, k);
    var quantity := DeliveryFor(required, items[k], stock[k]);
    hide DeliveryFor, WeekNeed;
    if quantity > 0 {
      Imported(items, stock, moves, k, quantity);
      stock := stock[k := stock[k] + quantity];
      moves := moves + [Import(k, quantity)];
    }
  }

  /** The weekly delivery of every ingredient. */
  method Restock(orders: seq<Order>, items: seq<Ingredient>, day: nat, before: seq<int>, log: seq<StockMove>)
    returns (stock: seq<int>, moves: seq<StockMove>)
    requires Explained(items, before, log) && day % 7 == 0
    ensures Explained(items, stock, moves) && Covered(stock, items, orders, day, 0)
    ensures forall k :: 0 <= k < |items| ==> stock[k] == AfterDelivery(WeekNeed(orders, day, k), items[k], before[k])
    ensures forall k: nat :: Total(moves, ExportOf(k)) == Total(log, ExportOf(k))
  {
    stock, moves := before, log;
    assert |stock| == |items|;
    hide WeekNeed, AfterDelivery, ExportOf, Explained, Covered;
    for k := 0 to |items|
      invariant Explained(items, stock, moves) && |stock| == |items|
      invariant forall j :: 0 <= j < k ==> stock[j] == AfterDelivery(WeekNeed(orders, day, j), items[j], before[j])
      invariant forall j :: k <= j < |items| ==> stock[j] == before[j]
      invariant forall j: nat :: Total(moves, ExportOf(j)) == Total(log, ExportOf(j))
    {
      stock, moves := Deliver(orders, items, day, k, stock, moves);
    }
    forall k | 0 <= k < |stock| ensures stock[k] >= items[k].reorderPoint + Total(orders, Between(day, day + 7, k)) {
      DeliveryCovers(WeekNeed(orders, day, k), items[k], before[k]);
    }
    RestockedIsCovered(stock, items, orders, day);
  }

  method Required(orders: seq<Order>, day: nat, k: Id) returns (sum: nat)
    ensures sum == WeekNeed(orders, day, k)
  {
    sum := 0;
    for i := 0 to |orders|
      invariant sum == Total(orders[..i], Between(day, day + 7, k))
    {
      assert orders[..i + 1] == orders[..i] + [orders[i]];
      TotalAppend(orders[..i], orders[i], Between(day, day + 7, k));
      hide WeekNeed;
      var o := orders[i];
      if day <= o.day < day + 7 && Prepared(o) {
        TotalNonNegative(o.uses, Of(k));
        sum := sum + Total(o.uses, Of(k));
      }
    }
    assert orders[..|orders|] == orders;
  }

  /** Once `uses` are taken, ingredient `k` still covers its reservations. */
  predicate LeavesReserved(uses: seq<Use>, items: seq<Ingredient>, before: seq<int>, k: Id)
    requires |before| == |items| && k < |items|
  {
    before[k] - Total(uses, Of(k)) >= items[k].reserved
  }

  lemma LeavesWhat(uses: seq<Use>, items: seq<Ingredient>, before: seq<int>, stock: seq<int>, k: Id)
    requires |before| == |items| == |stock| && k < |items| && stock[k] == before[k] - Total(uses, Of(k))
    ensures LeavesReserved(uses, items, before, k) <==> stock[k] >= items[k].reserved
  {
  }

  lemma TookTooMuch(uses: seq<Use>, items: seq<Ingredient>, before: seq<int>, m: nat)
    requires |before| == |items| && m < |uses| && uses[m].ingredient < |items|
    requires !LeavesReserved(uses[..m + 1], items, before, uses[m].ingredient)
    ensures !LeavesReserved(uses, items, before, uses[m].ingredient)
  {
    UseStep(uses, m);
  }

  lemma TookOneMore(uses: seq<Use>, items: seq<Ingredient>, before: seq<int>, m: nat)
    requires |before| == |items| && m < |uses| && forall j :: 0 <= j <= m ==> uses[j].ingredient < |items|
    requires forall j :: 0 <= j < m ==> LeavesReserved(uses[..m], items, before, uses[j].ingredient)
    requires LeavesReserved(uses[..m + 1], items, before, uses[m].ingredient)
    ensures forall j :: 0 <= j <= m ==> LeavesReserved(uses[..m + 1], items, before, uses[j].ingredient)
  {
    UseStep(uses, m);
  }

  /** Takes the uses of one prepared order from stock; `ok` says that no ingredient it uses fell below
      its reservations. */
  method ConsumeOrder(o: Order, items: seq<Ingredient>, before: seq<int>, log: seq<StockMove>)
    returns (ok: bool, stock: seq<int>, moves: seq<StockMove>)
    requires Explained(items, before, log) && forall j :: 0 <= j < |o.uses| ==> o.uses[j].ingredient < |items|
    ensures ok <==> forall j :: 0 <= j < |o.uses| ==> LeavesReserved(o.uses, items, before, o.uses[j].ingredient)
    ensures ok ==> Explained(items, stock, moves) && forall k :: 0 <= k < |items| ==> stock[k] == before[k] - Total(o.uses, Of(k))
    ensures ok ==> forall k: nat :: Total(moves, ExportOf(k)) == Total(log, ExportOf(k)) + Total(o.uses, Of(k))
  {
    ok, stock, moves := true, before, log;
    assert |stock| == |items|;
    hide Explained, ExportOf;
    for m := 0 to |o.uses|
      invariant ok && |stock| == |items| && Explained(items, stock, moves)
      invariant forall k :: 0 <= k < |items| ==> stock[k] == before[k] - Total(o.uses[..m], Of(k))
      invariant forall k: nat :: Total(moves, ExportOf(k)) == Total(log, ExportOf(k)) + Total(o.uses[..m], Of(k))
      invariant forall j :: 0 <= j < m ==> LeavesReserved(o.uses[..m], items, before, o.uses[j].ingredient)
    {
      var u := o.uses[m];
      UseStep(o.uses, m);
      hide LeavesReserved;
      Exported(items, stock, moves, u);
      stock := stock[u.ingredient := stock[u.ingredient] - u.quantity];
      moves := moves + [Export(u.ingredient, u.quantity)];
      LeavesWhat(o.uses[..m + 1], items, before, stock, u.ingredient);
      if stock[u.ingredient] < items[u.ingredient].reserved {
        TookTooMuch(o.uses, items, before, m);
        ok := false;
        return;
      }
      TookOneMore(o.uses, items, before, m);
    }
    assert o.uses[..|o.uses|] == o.uses;
  }

  /** After one more use there is still at least what remains at the end. */
  lemma UseStep(uses: seq<Use>, m: nat)
    requires m < |uses|
    ensures forall k: nat :: Total(uses[..m + 1], Of(k)) == Total(uses[..m], Of(k)) + Of(k)(uses[m])
    ensures forall k: nat :: Total(uses[..m + 1], Of(k)) <= Total(uses, Of(k))
  {
    forall k: nat
      ensures Total(uses[..m + 1], Of(k)) == Total(uses[..m], Of(k)) + Of(k)(uses[m])
      ensures Total(uses[..m + 1], Of(k)) <= Total(uses, Of(k))
    {
      assert uses[..m + 1] == uses[..m] + [uses[m]];
      TotalAppend(uses[..m], uses[m], Of(k));
      assert uses == uses[..m + 1] + uses[m + 1..];
      TotalConcat(uses[..m + 1], uses[m + 1..], Of(k));
      TotalNonNegative(uses[m + 1..], Of(k));
    }
  }

  /** What order `n` of the day takes still leaves the rest of the week covered. */
  lemma OrderCovered(stock: seq<int>, after: seq<int>, items: seq<Ingredient>, orders: seq<Order>, day: nat, n: nat)
    requires n < |orders| && |stock| == |items| == |after| && Covered(stock, items, orders, day, n)
    requires forall k :: 0 <= k < |items| ==> after[k] == stock[k] - OnDay(day, k)(orders[n])
    ensures Covered(after, items, orders, day, n + 1)
    ensures forall k :: 0 <= k < |items| ==> after[k] >= items[k].reorderPoint
  {
    forall k | 0 <= k < |items|
      ensures after[k] >= items[k].reorderPoint + Total(orders[n + 1..], OnDay(day, k)) + Total(orders, Between(day + 1, WeekEnd(day), k))
      ensures after[k] >= items[k].reorderPoint
    {
      TotalFrom(orders, n, OnDay(day, k));
      RestNonNegative(orders, day + 1, WeekEnd(day), k);
      RestNonNegative(orders[n + 1..], day, day + 1, k);
    }
  }

  function SaleOf(c: Cash): int { if c.Sale? then c.amount else 0 }
  function RefundAmount(c: Cash): int { if c.Refund? then c.amount else 0 }

  /** What the served orders of the days from `first` up to `last` bring in, and what of it is refunded. */
  function SoldBetween(first: nat, last: nat): Order -> int {
    (o: Order) => if first <= o.day < last && o.outcome == Served then o.total else 0
  }

  function RefundedBetween(first: nat, last: nat): Order -> int {
    (o: Order) => if first <= o.day < last && o.outcome == Served then RefundOf(o) else 0
  }

  predicate NoneReserved(items: seq<Ingredient>) { forall k :: 0 <= k < |items| ==> items[k].reserved == 0 }

  /** The sale of a served order and its refund, if there is one. */
  method BookSale(o: Order, till: int, book: seq<Cash>) returns (balance: int, cash: seq<Cash>)
    ensures Total(cash, SaleOf) == Total(book, SaleOf) + o.total && Total(cash, RefundAmount) == Total(book, RefundAmount) + RefundOf(o)
    ensures balance == till + o.total - RefundOf(o) && GivesBack(o, till + o.total - balance)
  {
    var refund := RefundOf(o);
    TotalAppend(book, Sale(o.total), SaleOf);
    TotalAppend(book, Sale(o.total), RefundAmount);
    cash := book + [Sale(o.total)];
    balance := till + o.total - refund;
    if refund > 0 {
      TotalAppend(cash, Refund(refund), SaleOf);
      TotalAppend(cash, Refund(refund), RefundAmount);
      cash := cash + [Refund(refund)];
    }
  }

  /** The money and the stock that the first `n` orders moved on a day. */
  ghost predicate DayBooked(orders: seq<Order>, n: nat, day: nat, log: seq<StockMove>, moves: seq<StockMove>, book: seq<Cash>, cash: seq<Cash>)
    requires n <= |orders|
  {
    && (forall k: nat :: Total(moves, ExportOf(k)) == Total(log, ExportOf(k)) + Total(orders[..n], OnDay(day, k)))
    && Total(cash, SaleOf) == Total(book, SaleOf) + Total(orders[..n], SoldBetween(day, day + 1))
    && Total(cash, RefundAmount) == Total(book, RefundAmount) + Total(orders[..n], RefundedBetween(day, day + 1))
  }

  lemma OrderBooked(orders: seq<Order>, n: nat, day: nat, log: seq<StockMove>, moves: seq<StockMove>, more: seq<StockMove>,
                    book: seq<Cash>, cash: seq<Cash>, moreCash: seq<Cash>)
    requires n < |orders| && DayBooked(orders, n, day, log, moves, book, cash)
    requires forall k: nat :: Total(more, ExportOf(k)) == Total(moves, ExportOf(k)) + OnDay(day, k)(orders[n])
    requires Total(moreCash, SaleOf) == Total(cash, SaleOf) + SoldBetween(day, day + 1)(orders[n])
    requires Total(moreCash, RefundAmount) == Total(cash, RefundAmount) + RefundedBetween(day, day + 1)(orders[n])
    ensures DayBooked(orders, n + 1, day, log, more, book, moreCash)
  {
    assert orders[..n + 1] == orders[..n] + [orders[n]];
    forall k: nat ensures Total(orders[..n + 1], OnDay(day, k)) == Total(orders[..n], OnDay(day, k)) + OnDay(day, k)(orders[n]) {
      TotalAppend(orders[..n], orders[n], OnDay(day, k));
    }
    TotalAppend(orders[..n], orders[n], SoldBetween(day, day + 1));
    TotalAppend(orders[..n], orders[n], RefundedBetween(day, day + 1));
  }

  /** One order on its day. */
  method ServeOrder(orders: seq<Order>, n: nat, items: seq<Ingredient>, day: nat, before: seq<int>, log: seq<StockMove>, till: int, book: seq<Cash>)
    returns (ok: bool, stock: seq<int>, moves: seq<StockMove>, balance: int, cash: seq<Cash>)
    requires n < |orders| && OrdersOk(orders, |items|) && NoneReserved(items)
    requires Explained(items, before, log) && Covered(before, items, orders, day, n)
    ensures ok && Explained(items, stock, moves) && Covered(stock, items, orders, day, n + 1)
    ensures forall k: nat :: Total(moves, ExportOf(k)) == Total(log, ExportOf(k)) + OnDay(day, k)(orders[n])
    ensures Total(cash, SaleOf) == Total(book, SaleOf) + SoldBetween(day, day + 1)(orders[n])
    ensures Total(cash, RefundAmount) == Total(book, RefundAmount) + RefundedBetween(day, day + 1)(orders[n])
    ensures balance - till == SoldBetween(day, day + 1)(orders[n]) - RefundedBetween(day, day + 1)(orders[n]) >= 0
  {
    var o := orders[n];
    ok, stock, moves, balance, cash := true, before, log, till, book;
    ghost var evening := seq(|items|, k requires 0 <= k < |items| => before[k] - OnDay(day, k)(o));
    OrderCovered(before, evening, items, orders, day, n);
    if o.day == day && Prepared(o) {
      ok, stock, moves := ConsumeOrder(o, items, before, log);
      assert forall j :: 0 <= j < |o.uses| ==> LeavesReserved(o.uses, items, before, o.uses[j].ingredient) by {
        assert forall k :: 0 <= k < |items| ==> before[k] - Total(o.uses, Of(k)) == evening[k];
      }
    }
    assert stock == evening;
    if o.day == day && o.outcome == Served {
      balance, cash := BookSale(o, till, book);
    }
  }

  /** The orders of one day. */
  method ServeDay(orders: seq<Order>, items: seq<Ingredient>, day: nat, before: seq<int>, log: seq<StockMove>, till: int, book: seq<Cash>)
    returns (ok: bool, stock: seq<int>, moves: seq<StockMove>, balance: int, cash: seq<Cash>)
    requires OrdersOk(orders, |items|) && NoneReserved(items) && Explained(items, before, log) && Covered(before, items, orders, day, 0)
    ensures ok && Explained(items, stock, moves) && Covered(stock, items, orders, day, |orders|)
    ensures DayBooked(orders, |orders|, day, log, moves, book, cash)
    ensures balance - till == (Total(cash, SaleOf) - Total(cash, RefundAmount)) - (Total(book, SaleOf) - Total(book, RefundAmount)) >= 0
  {
    ok, stock, moves, balance, cash := true, before, log, till, book;
    assert DayBooked(orders, 0, day, log, moves, book, cash);
    hide DayBooked, Explained, Covered, ExportOf, OnDay, SoldBetween, RefundedBetween;
    for n := 0 to |orders|
      invariant ok && |stock| == |items| && Explained(items, stock, moves) && Covered(stock, items, orders, day, n)
      invariant DayBooked(orders, n, day, log, moves, book, cash)
      invariant balance - till == (Total(cash, SaleOf) - Total(cash, RefundAmount)) - (Total(book, SaleOf) - Total(book, RefundAmount)) >= 0
    {
      ghost var someMoves, someCash := moves, cash;
      ok, stock, moves, balance, cash := ServeOrder(orders, n, items, day, stock, moves, balance, cash);
      OrderBooked(orders, n, day, log, someMoves, moves, book, someCash, cash);
      if !ok {
        return;
      }
    }
  }

  predicate OpensRight(shifts: seq<Shift>, d: nat)
    requires d < |shifts|
  {
    shifts[d].opening == (if d == 0 then OPENING_FLOAT else shifts[d - 1].closing)
  }

  /** Each shift opens with what the one before closed with, the first with the float, and the balance is
      what the last closed with. */
  predicate Chained(shifts: seq<Shift>, balance: int) {
    && (forall d :: 0 <= d < |shifts| ==> OpensRight(shifts, d))
    && balance == (if |shifts| == 0 then OPENING_FLOAT else shifts[|shifts| - 1].closing)
  }

  lemma ChainMore(shifts: seq<Shift>, s: Shift)
    requires Chained(shifts, s.opening)
    ensures Chained(shifts + [s], s.closing)
  {
    forall d | 0 <= d <= |shifts| ensures OpensRight(shifts + [s], d) {
      assert d < |shifts| ==> OpensRight(shifts, d);
    }
  }

  /** What was exported and taken in since the first day. */
  ghost predicate BookedUntil(orders: seq<Order>, day: nat, moves: seq<StockMove>, cash: seq<Cash>) {
    && (forall k: nat :: Total(moves, ExportOf(k)) == Total(orders, Between(0, day, k)))
    && Total(cash, SaleOf) == Total(orders, SoldBetween(0, day)) && Total(cash, RefundAmount) == Total(orders, RefundedBetween(0, day))
  }

  lemma NothingBooked(orders: seq<Order>)
    ensures BookedUntil(orders, 0, [], [])
  {
    forall k: nat ensures Total(orders, Between(0, 0, k)) == 0 {
      TotalZero(orders, Between(0, 0, k));
    }
    TotalZero(orders, SoldBetween(0, 0));
    TotalZero(orders, RefundedBetween(0, 0));
  }

  lemma AnotherDayBooked(orders: seq<Order>, day: nat, log: seq<StockMove>, moves: seq<StockMove>, book: seq<Cash>, cash: seq<Cash>)
    requires BookedUntil(orders, day, log, book) && DayBooked(orders, |orders|, day, log, moves, book, cash)
    ensures BookedUntil(orders, day + 1, moves, cash)
  {
    assert orders[..|orders|] == orders;
    forall k: nat ensures Total(orders, Between(0, day + 1, k)) == Total(orders, Between(0, day, k)) + Total(orders, OnDay(day, k)) {
      TotalsAdd(orders, orders, Between(0, day, k), OnDay(day, k), Between(0, day + 1, k));
    }
    TotalsAdd(orders, orders, SoldBetween(0, day), SoldBetween(day, day + 1), SoldBetween(0, day + 1));
    TotalsAdd(orders, orders, RefundedBetween(0, day), RefundedBetween(day, day + 1), RefundedBetween(0, day + 1));
  }

  /** For every list of orders, if nothing was reserved beforehand: stock never falls below the reorder point
      nor below its reservations, so the plan is always built; what is left of an ingredient is what there was
      plus all deliveries less exactly what the prepared orders of those days take; every day opens with what
      the day before closed with; and the balance is the float plus the sales of those days less their
      refunds, and never less than the float. */
  method BuildActivityPlan(days: nat, items: seq<Ingredient>, orders: seq<Order>) returns (r: Result)
    requires OrdersOk(orders, |items|)
    ensures r.Refused? <==> !NoneReserved(items)
    ensures !r.Oversold?
    ensures r.Built? ==> Explained(items, r.plan.stock, r.plan.moves) && BookedUntil(orders, days, r.plan.moves, r.plan.cash)
    ensures r.Built? && days > 0 ==> forall k :: 0 <= k < |items| ==> r.plan.stock[k] >= items[k].reorderPoint
    ensures r.Built? ==> |r.plan.shifts| == days && Chained(r.plan.shifts, r.plan.balance)
    ensures r.Built? ==> r.plan.balance == OPENING_FLOAT + Total(r.plan.cash, SaleOf) - Total(r.plan.cash, RefundAmount) >= OPENING_FLOAT
  {
    if !NoneReserved(items) {
      return Refused;
    }
    var stock := seq(|items|, k requires 0 <= k < |items| => items[k].stock);
    var moves: seq<StockMove> := [];
    var cash: seq<Cash> := [];
    var shifts: seq<Shift> := [];
    var balance := OPENING_FLOAT;
    NothingBooked(orders);
    for day := 0 to days
      invariant Explained(items, stock, moves) && BookedUntil(orders, day, moves, cash)
      invariant |stock| == |items| && |shifts| == day && Chained(shifts, balance)
      invariant forall k :: 0 <= k < |items| && day > 0 ==> stock[k] >= items[k].reorderPoint
      invariant day % 7 != 0 ==> Covered(stock, items, orders, day, 0)
      invariant balance == OPENING_FLOAT + Total(cash, SaleOf) - Total(cash, RefundAmount) >= OPENING_FLOAT
    {
      if day % 7 == 0 {
        stock, moves := Restock(orders, items, day, stock, moves);
        assert BookedUntil(orders, day, moves, cash);
      }
      var opening := balance;
      ghost var morning, book := moves, cash;
      var ok;
      ok, stock, moves, balance, cash := ServeDay(orders, items, day, stock, moves, balance, cash);
      if !ok {
        return Oversold;
      }
      AnotherDayBooked(orders, day, morning, moves, book, cash);
      AboveReorderPoint(stock, items, orders, day);
      if (day + 1) % 7 != 0 {
        NextDayCovered(stock, items, orders, day);
      }
      ChainMore(shifts, Shift(opening, balance));
      shifts := shifts + [Shift(opening, balance)];
    }
    return Built(Plan(stock, moves, cash, shifts, balance));
  }

  lemma AboveReorderPoint(stock: seq<int>, items: seq<Ingredient>, orders: seq<Order>, day: nat)
    requires |stock| == |items| && Covered(stock, items, orders, day, |orders|)
    ensures forall k :: 0 <= k < |items| ==> stock[k] >= items[k].reorderPoint
  {
    forall k | 0 <= k < |items| ensures stock[k] >= items[k].reorderPoint {
      RestNonNegative(orders, day + 1, WeekEnd(day), k);
      RestNonNegative(orders[|orders|..], day, day + 1, k);
    }
  }
}
